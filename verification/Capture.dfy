/** The daily gate-latency capture (tools/factory/gate_digest.py): every confirmed
    passage of every issue's history is handed to the cost ledger each day, and
    each is recorded once. */
module Capture {
  import opened Rows
  import opened Gates
  import opened CostLedger

  /** An issue's label history, under the work order it mirrors. A day's histories
      are those whose timeline was read that day, in issue order. */
  datatype History = History(issue: nat, wo: string, events: seq<Event>)

  /** A gate row: its identity is the passage's end, its month the end's. */
  function GateEntry(wo: string, p: Passage, monthOf: int -> nat): CostLedger.Entry {
    CostLedger.Entry(wo, PassageId(p.gate, p.at), 0, GateWait(p.gate, p.waited), Some(monthOf(p.at)))
  }

  function EntriesOf(h: History, monthOf: int -> nat): seq<CostLedger.Entry> {
    var passages := Passages(h.events);
    seq(|passages|, i requires 0 <= i < |passages| => GateEntry(h.wo, passages[i], monthOf))
  }

  /** The rows one day's capture hands over, issue by issue. */
  function CaptureRows(day: seq<History>, monthOf: int -> nat): seq<CostLedger.Entry> {
    if day == [] then [] else CaptureRows(Init(day), monthOf) + EntriesOf(Last(day), monthOf)
  }

  lemma {:induction false} CaptureRowsAre(day: seq<History>, monthOf: int -> nat)
    ensures forall e :: e in CaptureRows(day, monthOf) <==>
      exists h, p :: h in day && p in Passages(h.events) && e == GateEntry(h.wo, p, monthOf)
  {
    if day != [] {
      CaptureRowsAre(Init(day), monthOf);
      EntriesAre(Last(day), monthOf);
      assert day == Init(day) + [Last(day)];
      assert forall h :: h in day <==> h in Init(day) || h == Last(day);
    }
  }

  lemma EntriesAre(h: History, monthOf: int -> nat)
    ensures forall e :: e in EntriesOf(h, monthOf) <==>
      exists p :: p in Passages(h.events) && e == GateEntry(h.wo, p, monthOf)
  {
    var passages, rows := Passages(h.events), EntriesOf(h, monthOf);
    forall p | p in passages
      ensures GateEntry(h.wo, p, monthOf) in rows
    {
      var i :| 0 <= i < |passages| && passages[i] == p;
      assert rows[i] in rows;
    }
  }

  /** The row says of the passage: which work order, which gate and when it ended, how long
      it waited, and the month it ended in; it costs nothing. */
  predicate Says(e: CostLedger.Entry, wo: string, p: Passage, monthOf: int -> nat) {
    && e.wo == wo && e.run == PassageId(p.gate, p.at) && e.outcome == GateWait(p.gate, p.waited)
    && e.cost == 0 && e.month == Some(monthOf(p.at))
  }

  /** The rows handed over say of the passages read, and every passage read is said. */
  lemma {:induction false} RowsSayPassages(day: seq<History>, monthOf: int -> nat)
    ensures forall e :: e in CaptureRows(day, monthOf) ==>
      exists h, p :: h in day && p in Passages(h.events) && Says(e, h.wo, p, monthOf)
    ensures forall h, p :: h in day && p in Passages(h.events) ==>
      exists e :: e in CaptureRows(day, monthOf) && Says(e, h.wo, p, monthOf)
  {
    CaptureRowsAre(day, monthOf);
    forall e | e in CaptureRows(day, monthOf)
      ensures exists h, p :: h in day && p in Passages(h.events) && Says(e, h.wo, p, monthOf)
    {
      var h, p :| h in day && p in Passages(h.events) && e == GateEntry(h.wo, p, monthOf);
      assert Says(e, h.wo, p, monthOf);
    }
    forall h, p | h in day && p in Passages(h.events)
      ensures exists e :: e in CaptureRows(day, monthOf) && Says(e, h.wo, p, monthOf)
    {
      assert Says(GateEntry(h.wo, p, monthOf), h.wo, p, monthOf);
    }
  }

  /** A row the ledger's reader takes for a wait: a negative one it does not. */
  predicate Readable(e: CostLedger.Entry) {
    e.outcome.GateWait? && e.outcome.waited >= 0
  }

  /** No passage read that day waits a negative time. */
  ghost predicate WaitsWhole(day: seq<History>) {
    forall h, p :: h in day && p in Passages(h.events) ==> p.waited >= 0
  }

  lemma {:induction false} ReadableIffWhole(day: seq<History>, monthOf: int -> nat)
    ensures (forall e :: e in CaptureRows(day, monthOf) ==> Readable(e)) <==> WaitsWhole(day)
  {
    CaptureRowsAre(day, monthOf);
    if forall e :: e in CaptureRows(day, monthOf) ==> Readable(e) {
      forall h, p | h in day && p in Passages(h.events)
        ensures p.waited >= 0
      {
        assert GateEntry(h.wo, p, monthOf) in CaptureRows(day, monthOf);
      }
    }
  }

  /** Chronological histories hold no other passages. */
  lemma ChronologicalIsWhole(day: seq<History>)
    requires forall h :: h in day ==> Chronological(h.events)
    ensures WaitsWhole(day)
  {
    forall h, p | h in day && p in Passages(h.events)
      ensures p.waited >= 0
    {
      WaitsAreWhole(h.events, GATES[0]);
      WaitsAreWhole(h.events, GATES[1]);
      WaitsAreWhole(h.events, GATES[2]);
    }
  }

  /** gate_digest._capture_latency; None where a negative wait raises, before any write. */
  method CaptureLatency(ledger: CostLedger.Ledger, day: seq<History>, monthOf: int -> nat)
    returns (landed: Option<seq<CostLedger.Entry>>)
    requires ledger.Valid()
    modifies ledger`aggregate
    ensures ledger.Valid() && (landed.Some? <==> WaitsWhole(day))
    ensures landed.None? ==> ledger.aggregate == old(ledger.aggregate)
    ensures landed.Some? ==>
      && ledger.aggregate == old(ledger.aggregate) + landed.value
      && landed.value == NewRows(old(Keys(ledger.Entries())), CaptureRows(day, monthOf))
      && Keys(ledger.Entries()) == old(Keys(ledger.Entries())) + Keys(CaptureRows(day, monthOf))
    ensures forall month :: Total(ledger.Entries(), month) == old(Total(ledger.Entries(), month))
  {
    var rows := CaptureRows(day, monthOf);
    ReadableIffWhole(day, monthOf);
    if exists e :: e in rows && !Readable(e) { return None; }
    var rowsLanded := ledger.RecordNew(rows);
    NewRowsLand(old(Keys(ledger.Entries())), rows);
    forall month: nat
      ensures Total(rowsLanded, month) == 0
    {
      WaitsCostNothing(rowsLanded, month);
    }
    landed := Some(rowsLanded);
  }

  lemma {:induction false} WaitsCostNothing(rows: seq<CostLedger.Entry>, month: nat)
    requires forall e :: e in rows ==> e.outcome.GateWait?
    ensures Total(rows, month) == 0
  {
    if rows != [] {
      assert Last(rows) in rows && forall e :: e in Init(rows) ==> e in rows;
      WaitsCostNothing(Init(rows), month);
    }
  }

  // ---- day after day

  /** A later reading of an issue's history: this one's, grown strictly later. */
  ghost predicate Grows(h: History, next: History) {
    next.wo == h.wo && exists more :: Later(h.events, more) && next.events == h.events + more
  }

  predicate ByIssue(day: seq<History>) {
    forall i, j :: 0 <= i < j < |day| ==> day[i].issue < day[j].issue
  }

  /** The histories of issues not read today. */
  function Unread(known: seq<History>, day: seq<History>): seq<History> {
    if known == [] then []
    else
      Unread(Init(known), day) + if exists h :: h in day && h.issue == Last(known).issue then [] else [Last(known)]
  }

  /** Each issue's latest reading, whichever day it was. */
  function Known(days: seq<seq<History>>): seq<History> {
    if days == [] then [] else Unread(Known(Init(days)), Last(days)) + Last(days)
  }

  lemma {:induction false} UnreadAre(known: seq<History>, day: seq<History>)
    ensures forall g :: g in Unread(known, day) <==> g in known && forall h :: h in day ==> h.issue != g.issue
  {
    if known != [] {
      UnreadAre(Init(known), day);
      assert known == Init(known) + [Last(known)];
    }
  }

  /** Day after day: any issue may be read or not, and one read again has grown since
      its last reading, which was settled. No capture was refused for a negative wait. */
  ghost predicate Daily(days: seq<seq<History>>) {
    days == []
    || (&& Daily(Init(days)) && ByIssue(Last(days)) && WaitsWhole(Last(days))
        && forall g, h :: g in Known(Init(days)) && h in Last(days) && g.issue == h.issue ==>
             Settled(g.events) && Grows(g, h))
  }

  /** The gate rows recorded after these days' captures, from a ledger with none. */
  function Recorded(days: seq<seq<History>>, monthOf: int -> nat): seq<CostLedger.Entry> {
    if days == [] then []
    else
      var before := Recorded(Init(days), monthOf);
      before + NewRows(Keys(before), CaptureRows(Last(days), monthOf))
  }

  /** The rows of every reading are among those of the latest ones. */
  lemma {:induction false} RowsStay(days: seq<seq<History>>, monthOf: int -> nat)
    requires days != [] && Daily(days)
    ensures forall e :: e in CaptureRows(Known(Init(days)), monthOf) ==> e in CaptureRows(Known(days), monthOf)
  {
    var known, day := Known(Init(days)), Last(days);
    CaptureRowsAre(known, monthOf);
    CaptureRowsAre(Known(days), monthOf);
    UnreadAre(known, day);
    forall e | e in CaptureRows(known, monthOf)
      ensures e in CaptureRows(Known(days), monthOf)
    {
      var g, p :| g in known && p in Passages(g.events) && e == GateEntry(g.wo, p, monthOf);
      if h :| h in day && h.issue == g.issue {
        assert Grows(g, h);
        var more :| Later(g.events, more) && h.events == g.events + more;
        PassagesStay(g.events, more);
        assert h in Known(days);
      } else {
        assert g in Known(days);
      }
    }
  }

  /** And the latest rows are today's and those of the issues not read today. */
  lemma {:induction false} LatestRowsAre(days: seq<seq<History>>, monthOf: int -> nat, e: CostLedger.Entry)
    requires days != []
    ensures e in CaptureRows(Known(days), monthOf)
       ==> e in CaptureRows(Last(days), monthOf) || e in CaptureRows(Known(Init(days)), monthOf)
    ensures e in CaptureRows(Last(days), monthOf) ==> e in CaptureRows(Known(days), monthOf)
  {
    CaptureRowsAre(Known(days), monthOf);
    CaptureRowsAre(Known(Init(days)), monthOf);
    CaptureRowsAre(Last(days), monthOf);
    UnreadAre(Known(Init(days)), Last(days));
  }

  /** After any number of daily captures, every row of the ledger is a passage's of
      the latest readings, every such passage has its row, and no two rows share an
      identity. */
  lemma {:induction false} EachPassageRecorded(days: seq<seq<History>>, monthOf: int -> nat)
    requires Daily(days)
    ensures var rows, latest := Recorded(days, monthOf), CaptureRows(Known(days), monthOf);
      && DistinctKeys(rows)
      && (forall e :: e in rows ==> e in latest)
      && Keys(rows) == Keys(latest)
    decreases |days|
  {
    if days != [] {
      var before := Init(days);
      var rows, today := Recorded(before, monthOf), CaptureRows(Last(days), monthOf);
      var landed := NewRows(Keys(rows), today);
      EachPassageRecorded(before, monthOf);
      NewRowsLand(Keys(rows), today);
      RowsStay(days, monthOf);
      forall e
        ensures e in CaptureRows(Known(days), monthOf) ==> e in today || e in CaptureRows(Known(before), monthOf)
        ensures e in today ==> e in CaptureRows(Known(days), monthOf)
      {
        LatestRowsAre(days, monthOf, e);
      }
      CaptureKeeps(rows, landed, today, CaptureRows(Known(before), monthOf), CaptureRows(Known(days), monthOf));
    }
  }

  lemma CaptureKeeps(rows: seq<CostLedger.Entry>, landed: seq<CostLedger.Entry>, today: seq<CostLedger.Entry>,
                     known: seq<CostLedger.Entry>, latest: seq<CostLedger.Entry>)
    requires DistinctKeys(rows) && DistinctKeys(landed) && Keys(landed) !! Keys(rows)
    requires Keys(rows) == Keys(known) && Keys(rows) + Keys(landed) == Keys(rows) + Keys(today)
    requires (forall e :: e in rows ==> e in known) && (forall e :: e in landed ==> e in today)
    requires forall e :: e in known || e in today ==> e in latest
    requires forall e :: e in latest ==> e in today || e in known
    ensures DistinctKeys(rows + landed) && (forall e :: e in rows + landed ==> e in latest)
    ensures Keys(rows + landed) == Keys(latest)
  {
    assert Keys(rows + landed) == Keys(rows) + Keys(landed) by {
      assert forall e :: e in rows + landed <==> e in rows || e in landed;
    }
    assert Keys(latest) == Keys(known) + Keys(today) by {
      assert forall e :: e in latest <==> e in known || e in today;
    }
    forall e, f | e in rows && f in landed
      ensures KeyOf(e) != KeyOf(f)
    {
      assert KeyOf(e) in Keys(rows) && KeyOf(f) in Keys(landed);
    }
    DistinctAppends(rows, landed);
  }

  // ---- one row for each passage

  lemma DistinctSnoc(rows: seq<CostLedger.Entry>, e: CostLedger.Entry)
    ensures DistinctKeys(rows + [e]) <==> DistinctKeys(rows) && KeyOf(e) !in Keys(rows)
  {
    var all := rows + [e];
    if DistinctKeys(all) {
      forall i, j | 0 <= i < j < |rows|
        ensures KeyOf(rows[i]) != KeyOf(rows[j])
      {
        assert all[i] == rows[i] && all[j] == rows[j];
      }
      forall f | f in rows
        ensures KeyOf(f) != KeyOf(e)
      {
        var i :| 0 <= i < |rows| && rows[i] == f;
        assert all[i] == f && all[|rows|] == e;
      }
    } else {
      assert forall f :: f in rows ==> KeyOf(f) in Keys(rows);
    }
  }

  /** Rows have as many identities as places exactly when no two share one. */
  lemma {:induction false} KeysCount(rows: seq<CostLedger.Entry>)
    ensures |Keys(rows)| <= |rows| && (|Keys(rows)| == |rows| <==> DistinctKeys(rows))
  {
    if rows == [] {
      assert Keys(rows) == {};
    } else {
      var before, e := Init(rows), Last(rows);
      KeysCount(before);
      KeysGrow(before, rows, e);
      DistinctSnoc(before, e);
      assert rows == before + [e];
    }
  }

  /** The latest readings are of different work orders. */
  predicate WorkOrdersDiffer(known: seq<History>) {
    forall i, j :: 0 <= i < j < |known| ==> known[i].wo != known[j].wo
  }

  lemma RowsOfOneDiffer(h: History, monthOf: int -> nat)
    requires Chronological(h.events)
    ensures DistinctKeys(EntriesOf(h, monthOf))
  {
    var rows := EntriesOf(h, monthOf);
    forall i, j | 0 <= i < j < |rows|
      ensures KeyOf(rows[i]) != KeyOf(rows[j])
    {
      PassagesDiffer(h.events, i, j);
    }
  }

  /** Every passage of chronological histories of different work orders has an identity of its own. */
  lemma {:induction false} PassagesHaveOwnKeys(known: seq<History>, monthOf: int -> nat)
    requires WorkOrdersDiffer(known) && forall h :: h in known ==> Chronological(h.events)
    ensures DistinctKeys(CaptureRows(known, monthOf))
  {
    if known != [] {
      var before, h := Init(known), Last(known);
      PassagesHaveOwnKeys(before, monthOf);
      RowsOfOneDiffer(h, monthOf);
      CaptureRowsAre(before, monthOf);
      forall e, f | e in CaptureRows(before, monthOf) && f in EntriesOf(h, monthOf)
        ensures KeyOf(e) != KeyOf(f)
      {
        var g, p :| g in before && p in Passages(g.events) && e == GateEntry(g.wo, p, monthOf);
        var i :| 0 <= i < |before| && before[i] == g;
        assert known[i] == g && known[|known| - 1] == h;
      }
      DistinctAppends(CaptureRows(before, monthOf), EntriesOf(h, monthOf));
    }
  }

  lemma {:induction false} OnceEach(rows: seq<CostLedger.Entry>, e: CostLedger.Entry)
    requires DistinctKeys(rows)
    ensures multiset(rows)[e] == if e in rows then 1 else 0
  {
    if rows != [] {
      assert rows == Init(rows) + [Last(rows)];
      OnceEach(Init(rows), e);
    }
  }

  lemma SameRows(rows: seq<CostLedger.Entry>, latest: seq<CostLedger.Entry>)
    requires DistinctKeys(rows) && DistinctKeys(latest) && Keys(rows) == Keys(latest)
    requires forall e :: e in rows ==> e in latest
    ensures multiset(rows) == multiset(latest)
  {
    forall e
      ensures multiset(rows)[e] == multiset(latest)[e]
    {
      OnceEach(rows, e);
      OnceEach(latest, e);
      if e in latest {
        assert KeyOf(e) in Keys(rows);
        var f :| f in rows && KeyOf(f) == KeyOf(e);
        assert f in latest && f == e;
      }
    }
  }

  /** The rows are as many as the passages of the latest readings exactly when no two
      of those passages share an identity. */
  lemma {:induction false} OneRowEachIffKeysDiffer(days: seq<seq<History>>, monthOf: int -> nat)
    requires Daily(days)
    ensures |Recorded(days, monthOf)| == |CaptureRows(Known(days), monthOf)|
       <==> DistinctKeys(CaptureRows(Known(days), monthOf))
  {
    EachPassageRecorded(days, monthOf);
    KeysCount(Recorded(days, monthOf));
    KeysCount(CaptureRows(Known(days), monthOf));
  }

  /** After any number of daily captures of chronological histories of different work
      orders, the ledger's gate rows are exactly one for each confirmed passage of the
      latest readings, and no other. */
  lemma {:induction false} EachPassageOnce(days: seq<seq<History>>, monthOf: int -> nat)
    requires Daily(days)
    requires WorkOrdersDiffer(Known(days)) && forall h :: h in Known(days) ==> Chronological(h.events)
    ensures DistinctKeys(CaptureRows(Known(days), monthOf))
    ensures multiset(Recorded(days, monthOf)) == multiset(CaptureRows(Known(days), monthOf))
    ensures |Recorded(days, monthOf)| == |CaptureRows(Known(days), monthOf)|
  {
    EachPassageRecorded(days, monthOf);
    PassagesHaveOwnKeys(Known(days), monthOf);
    SameRows(Recorded(days, monthOf), CaptureRows(Known(days), monthOf));
    OneRowEachIffKeysDiffer(days, monthOf);
  }

  // ---- the unsettled case

  const REJECTED: seq<Event> := [
    Event(1, true, NeedsReview), Event(2, false, NeedsReview),
    Event(3, true, NeedsReview), Event(4, true, MergedLabel)]
  const LEFT := Event(5, false, NeedsReview)

  const MERGE_GATE := GATES[2]

  lemma RejectedReadsConfirmed()
    ensures ScanOf(REJECTED, NeedsReview) == Scan([Span(1, 2)], Some(3))
    ensures FirstPass(REJECTED, MergedLabel, 1, None) == Some(4) && FirstPass(REJECTED, MergedLabel, 1, Some(3)) == None
    ensures FirstPass(REJECTED, MergedLabel, 3, None) == Some(4)
  {
    var e1, e2, e3 := REJECTED[..1], REJECTED[..2], REJECTED[..3];
    assert Init(REJECTED) == e3 && Init(e3) == e2 && Init(e2) == e1 && Init(e1) == [];
    assert ScanOf(e1, NeedsReview) == Scan([], Some(1));
    assert ScanOf(e2, NeedsReview) == Scan([Span(1, 2)], None);
    assert ScanOf(e3, NeedsReview) == Scan([Span(1, 2)], Some(3));
    NoPassYet(e3, 1, None);
    NoPassYet(e3, 1, Some(3));
    NoPassYet(e3, 3, None);
  }

  lemma {:induction false} NoPassYet(events: seq<Event>, start: int, next: Option<int>)
    requires forall e :: e in events ==> e.name != MergedLabel
    ensures FirstPass(events, MergedLabel, start, next) == None
  {
    if events != [] {
      assert Last(events) in events;
      NoPassYet(Init(events), start, next);
    }
  }

  lemma RejectedStays()
    ensures StaysOf(REJECTED, MERGE_GATE) == [Stay(1, 2, true)]
  {
    RejectedReadsConfirmed();
  }

  lemma {:induction false} TwoStays(events: seq<Event>, gate: Gate, a: Span, b: Span)
    requires ScanOf(events, gate.queue).spans == [a, b]
    ensures StaysOf(events, gate) == [StayOf(events, gate, a, Some(b.start)), StayOf(events, gate, b, None)]
  {
  }

  /** The event that leaves the queue is no pass label. */
  lemma {:induction false} LeavingPassesNothing(events: seq<Event>, e: Event, passed: Label, start: int,
                                                next: Option<int>)
    requires e.name != passed
    ensures FirstPass(events + [e], passed, start, next) == FirstPass(events, passed, start, next)
  {
    InitAndLast(events, e);
  }

  lemma FullStays()
    ensures StaysOf(REJECTED + [LEFT], MERGE_GATE) == [Stay(1, 2, false), Stay(3, 4, true)]
  {
    var full := REJECTED + [LEFT];
    RejectedReadsConfirmed();
    InitAndLast(REJECTED, LEFT);
    assert ScanOf(full, NeedsReview) == Scan([Span(1, 2), Span(3, 5)], None);
    LeavingPassesNothing(REJECTED, LEFT, MergedLabel, 1, Some(3));
    LeavingPassesNothing(REJECTED, LEFT, MergedLabel, 3, None);
    TwoStays(full, MERGE_GATE, Span(1, 2), Span(3, 5));
  }

  lemma PassagesAre(events: seq<Event>, gate: Gate)
    ensures forall p :: p in GatePassages(events, gate) <==>
      exists s :: s in StaysOf(events, gate) && s.confirmed && p == Passage(gate.name, s.end - s.start, s.end)
  {
    var confirmed, passages := Confirmed(StaysOf(events, gate)), GatePassages(events, gate);
    ConfirmedAre(StaysOf(events, gate));
    forall s | s in confirmed
      ensures Passage(gate.name, s.end - s.start, s.end) in passages
    {
      var k :| 0 <= k < |confirmed| && confirmed[k] == s;
      assert passages[k] in passages;
    }
  }

  /** Captured while a re-entered merge gate is passed but not yet left, a rejected
      stay is recorded as a passage; the next day's history has no such passage. */
  lemma ReentryRecordsARejection()
    ensures Later(REJECTED, [LEFT]) && ConfirmedByReentry(REJECTED, MERGE_GATE)
    ensures Passage("merge", 1, 2) in GatePassages(REJECTED, MERGE_GATE)
    ensures forall p :: p in GatePassages(REJECTED + [LEFT], MERGE_GATE) ==> p.at == 4
  {
    RejectedReadsConfirmed();
    RejectedPassage();
    NextDaysPassage();
  }

  lemma RejectedPassage()
    ensures Passage("merge", 1, 2) in GatePassages(REJECTED, MERGE_GATE)
  {
    RejectedStays();
    assert Stay(1, 2, true) in StaysOf(REJECTED, MERGE_GATE);
    PassagesAre(REJECTED, MERGE_GATE);
  }

  lemma NextDaysPassage()
    ensures forall p :: p in GatePassages(REJECTED + [LEFT], MERGE_GATE) ==> p.at == 4
  {
    FullStays();
    PassagesAre(REJECTED + [LEFT], MERGE_GATE);
  }
}
