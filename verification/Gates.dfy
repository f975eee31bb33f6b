/** The human gates (tools/factory/human_gates.py): the stays an issue's label
    events show in a gate's queue, which of them the gate's pass label confirms,
    and when a rescan of a longer history leaves them as they were. */
module Gates {
  import opened Rows

  datatype Label = Draft | PrdApproved | BlueprintApproved | NeedsReview | MergedLabel | OtherLabel(text: string)

  /** A label put on or taken off an issue. */
  datatype Event = Event(at: int, labeled: bool, name: Label)

  datatype Gate = Gate(name: string, queue: Label, passed: Label)

  const GATES: seq<Gate> := [
    Gate("prd", Draft, PrdApproved),
    Gate("blueprint", PrdApproved, BlueprintApproved),
    Gate("merge", NeedsReview, MergedLabel)]

  datatype Stay = Stay(start: int, end: int, confirmed: bool)

  /** A stay in the queue, entered and left. */
  datatype Span = Span(start: int, end: int)

  // ---- the spans

  /** The spans so far, and when the open one was entered. */
  datatype Scan = Scan(spans: seq<Span>, entered: Option<int>)

  function ScanOf(events: seq<Event>, queue: Label): Scan {
    if events == [] then Scan([], None)
    else
      var s, e := ScanOf(Init(events), queue), Last(events);
      if e.name != queue then s
      else if e.labeled then s.(entered := Some(e.at))
      else if s.entered.Some? then Scan(s.spans + [Span(s.entered.value, e.at)], None)
      else s
  }

  /** A pass label was applied inside the window [start, next). */
  predicate InWindow(e: Event, passed: Label, start: int, next: Option<int>) {
    e.labeled && e.name == passed && start <= e.at && (next.None? || e.at < next.value)
  }

  /** The earliest pass label in the window. */
  function FirstPass(events: seq<Event>, passed: Label, start: int, next: Option<int>): Option<int> {
    if events == [] then None
    else
      var earlier, e := FirstPass(Init(events), passed, start, next), Last(events);
      if !InWindow(e, passed, start, next) then earlier
      else if earlier.Some? && earlier.value <= e.at then earlier
      else Some(e.at)
  }

  function NextStart(spans: seq<Span>, i: nat): Option<int> {
    if i + 1 < |spans| then Some(spans[i + 1].start) else None
  }

  /** A span confirmed inside its window ends at its pass label when that came first. */
  function StayOf(events: seq<Event>, gate: Gate, span: Span, next: Option<int>): Stay {
    match FirstPass(events, gate.passed, span.start, next)
    case None => Stay(span.start, span.end, false)
    case Some(at) => Stay(span.start, if at < span.end then at else span.end, true)
  }

  function StaysOf(events: seq<Event>, gate: Gate): (stays: seq<Stay>)
    ensures |stays| == |ScanOf(events, gate.queue).spans|
  {
    var spans := ScanOf(events, gate.queue).spans;
    seq(|spans|, i requires 0 <= i < |spans| => StayOf(events, gate, spans[i], NextStart(spans, i)))
  }

  /** completed_stays: the events walked once for the queue, then each span
      matched with the pass labels of its window. */
  method CompletedStays(events: seq<Event>, gate: Gate) returns (stays: seq<Stay>)
    ensures stays == StaysOf(events, gate)
  {
    var spans: seq<Span> := [];
    var entered: Option<int> := None;
    var i := 0;
    while i < |events|
      invariant 0 <= i <= |events|
      invariant Scan(spans, entered) == ScanOf(events[..i], gate.queue)
    {
      assert Init(events[..i + 1]) == events[..i];
      var e := events[i];
      if e.name == gate.queue {
        if e.labeled {
          entered := Some(e.at);
        } else if entered.Some? {
          spans := spans + [Span(entered.value, e.at)];
          entered := None;
        }
      }
      i := i + 1;
    }
    assert events[..i] == events;
    stays := [];
    var k := 0;
    while k < |spans|
      invariant 0 <= k <= |spans| && |stays| == k
      invariant forall j :: 0 <= j < k ==> stays[j] == StayOf(events, gate, spans[j], NextStart(spans, j))
    {
      var next := NextStart(spans, k);
      var inside: Option<int> := None;
      var n := 0;
      while n < |events|
        invariant 0 <= n <= |events|
        invariant inside == FirstPass(events[..n], gate.passed, spans[k].start, next)
      {
        assert Init(events[..n + 1]) == events[..n];
        if InWindow(events[n], gate.passed, spans[k].start, next) && (inside.None? || events[n].at < inside.value) {
          inside := Some(events[n].at);
        }
        n := n + 1;
      }
      assert events[..n] == events;
      var end := if inside.Some? && inside.value < spans[k].end then inside.value else spans[k].end;
      stays := stays + [Stay(spans[k].start, end, inside.Some?)];
      k := k + 1;
    }
  }

  // ---- chronological events

  predicate Chronological(events: seq<Event>) {
    forall i, j :: 0 <= i < j < |events| ==> events[i].at <= events[j].at
  }

  lemma {:induction false} SpansInOrder(events: seq<Event>, queue: Label)
    requires Chronological(events)
    ensures var s := ScanOf(events, queue);
      && (forall i :: 0 <= i < |s.spans| ==> s.spans[i].start <= s.spans[i].end)
      && (forall i, j :: 0 <= i < j < |s.spans| ==> s.spans[i].end <= s.spans[j].start)
      && (forall i :: 0 <= i < |s.spans| ==> s.spans[i].end <= Last(events).at)
      && (s.entered.Some? ==>
            && s.entered.value <= Last(events).at
            && forall i :: 0 <= i < |s.spans| ==> s.spans[i].end <= s.entered.value)
    ensures events == [] ==> ScanOf(events, queue) == Scan([], None)
  {
    if events != [] {
      SpansInOrder(Init(events), queue);
      assert Init(events) != [] ==> Last(Init(events)).at <= Last(events).at;
    }
  }

  lemma {:induction false} FirstPassIsFirst(events: seq<Event>, passed: Label, start: int, next: Option<int>)
    ensures var first := FirstPass(events, passed, start, next);
      && (first.Some? <==> exists e :: e in events && InWindow(e, passed, start, next))
      && (first.Some? ==>
            start <= first.value && exists e :: e in events && InWindow(e, passed, start, next) && e.at == first.value)
      && (first.Some? ==> forall e :: e in events && InWindow(e, passed, start, next) ==> first.value <= e.at)
  {
    if events != [] {
      FirstPassIsFirst(Init(events), passed, start, next);
      assert events == Init(events) + [Last(events)];
      if InWindow(Last(events), passed, start, next) { assert Last(events) in events; }
    }
  }

  /** The queue label went on at `i` and off at `j`, and did neither between. */
  predicate Queued(events: seq<Event>, queue: Label, i: int, j: int) {
    && 0 <= i < j < |events| && events[i].name == queue && events[i].labeled
    && events[j].name == queue && !events[j].labeled
    && forall k :: i < k < j ==> events[k].name != queue
  }

  /** The last event of the queue label is at `i`. */
  predicate LastOfQueue(events: seq<Event>, queue: Label, i: int) {
    0 <= i < |events| && events[i].name == queue && forall k :: i < k < |events| ==> events[k].name != queue
  }

  /** The open stay is entered where the queue label last went on, if it did not go off since. */
  lemma {:induction false} EnteredIs(events: seq<Event>, queue: Label)
    ensures var s := ScanOf(events, queue);
      && (s.entered.Some? ==>
            exists i :: LastOfQueue(events, queue, i) && events[i].labeled && s.entered == Some(events[i].at))
      && (s.entered.None? ==> forall i :: LastOfQueue(events, queue, i) ==> !events[i].labeled)
  {
    if events != [] {
      var before, e := Init(events), Last(events);
      EnteredIs(before, queue);
      assert forall k :: 0 <= k < |before| ==> events[k] == before[k];
      if e.name == queue {
        assert LastOfQueue(events, queue, |events| - 1);
      } else if ScanOf(before, queue).entered.Some? {
        var i :| LastOfQueue(before, queue, i) && before[i].labeled
                 && ScanOf(before, queue).entered == Some(before[i].at);
        assert LastOfQueue(events, queue, i);
      } else {
        assert forall i :: LastOfQueue(events, queue, i) ==> LastOfQueue(before, queue, i);
      }
    }
  }

  /** One more event: a stay it ends began where the queue label last went on. */
  predicate EndsStay(events: seq<Event>, e: Event, queue: Label, i: int) {
    e.name == queue && !e.labeled && LastOfQueue(events, queue, i) && events[i].labeled
  }

  lemma QueuedSnoc(events: seq<Event>, e: Event, queue: Label, i: int, j: int)
    ensures Queued(events + [e], queue, i, j)
       <==> Queued(events, queue, i, j) || (j == |events| && EndsStay(events, e, queue, i))
  {
    var all := events + [e];
    if 0 <= i < j == |events| {
      assert forall k :: 0 <= k < |events| ==> all[k] == events[k];
      if Queued(all, queue, i, j) {
        assert forall k :: i < k < j ==> events[k] == all[k];
      }
    } else if 0 <= i < j < |events| {
      assert forall k :: i <= k <= j ==> events[k] == all[k];
      if Queued(all, queue, i, j) {
        assert forall k :: i < k < j ==> all[k] == events[k];
      }
    }
  }

  /** The stay this span is of. */
  ghost predicate SpanFrom(events: seq<Event>, queue: Label, s: Span) {
    exists i, j :: Queued(events, queue, i, j) && s == Span(events[i].at, events[j].at)
  }

  lemma {:induction false} SpanFromSnoc(events: seq<Event>, e: Event, queue: Label, s: Span)
    ensures SpanFrom(events + [e], queue, s)
       <==> || SpanFrom(events, queue, s)
            || exists i :: EndsStay(events, e, queue, i) && s == Span(events[i].at, e.at)
  {
    var all := events + [e];
    if SpanFrom(events, queue, s) {
      var i, j :| Queued(events, queue, i, j) && s == Span(events[i].at, events[j].at);
      QueuedSnoc(events, e, queue, i, j);
      assert Queued(all, queue, i, j) && all[i] == events[i] && all[j] == events[j];
    }
    if i :| EndsStay(events, e, queue, i) && s == Span(events[i].at, e.at) {
      QueuedSnoc(events, e, queue, i, |events|);
      assert Queued(all, queue, i, |events|) && all[i] == events[i] && all[|events|] == e;
    }
    if SpanFrom(all, queue, s) {
      var i, j :| Queued(all, queue, i, j) && s == Span(all[i].at, all[j].at);
      QueuedSnoc(events, e, queue, i, j);
      assert all[i] == events[i];
      if j < |events| { assert all[j] == events[j]; }
    }
  }

  /** A gate's queue was stayed in exactly from each time its label went on to the next
      time it came off. */
  lemma {:induction false} SpansAre(events: seq<Event>, queue: Label, s: Span)
    ensures s in ScanOf(events, queue).spans <==> SpanFrom(events, queue, s)
  {
    if events != [] {
      var before, e := Init(events), Last(events);
      assert events == before + [e];
      SpansAre(before, queue, s);
      EnteredIs(before, queue);
      SpanFromSnoc(before, e, queue, s);
    }
  }

  /** The pass label went on from the stay's start up to the next one. */
  predicate PassedWithin(e: Event, passed: Label, start: int, next: Option<int>) {
    e.name == passed && e.labeled && e.at >= start && (next.Some? ==> e.at < next.value)
  }

  /** A stay is confirmed exactly when its pass label went on within it or after, before
      the next; it then ends at the first such label or where the queue label came off,
      whichever was first; an unconfirmed one ends where the queue label came off. */
  lemma {:induction false} StayIs(events: seq<Event>, gate: Gate, i: nat)
    requires i < |ScanOf(events, gate.queue).spans|
    ensures var spans := ScanOf(events, gate.queue).spans;
      var stay := StaysOf(events, gate)[i];
      var span, next := spans[i], if i + 1 < |spans| then Some(spans[i + 1].start) else None;
      && stay.start == span.start && stay.end <= span.end
      && (stay.confirmed <==> exists e :: e in events && PassedWithin(e, gate.passed, span.start, next))
      && (forall e :: e in events && PassedWithin(e, gate.passed, span.start, next) ==> stay.end <= e.at)
      && (stay.end == span.end
          || exists e :: e in events && PassedWithin(e, gate.passed, span.start, next) && stay.end == e.at)
  {
    var spans := ScanOf(events, gate.queue).spans;
    FirstPassIsFirst(events, gate.passed, spans[i].start, NextStart(spans, i));
    forall e
      ensures PassedWithin(e, gate.passed, spans[i].start, NextStart(spans, i))
         <==> InWindow(e, gate.passed, spans[i].start, NextStart(spans, i))
    {
    }
  }

  /** A gate's completed stays are in order, do not overlap, and each ends no
      earlier than it starts. */
  lemma StaysInOrder(events: seq<Event>, gate: Gate)
    requires Chronological(events)
    ensures var stays := StaysOf(events, gate);
      && (forall i :: 0 <= i < |stays| ==> stays[i].start <= stays[i].end)
      && (forall i, j :: 0 <= i < j < |stays| ==> stays[i].end <= stays[j].start)
  {
    SpansInOrder(events, gate.queue);
    var spans := ScanOf(events, gate.queue).spans;
    forall i | 0 <= i < |spans|
      ensures StaysOf(events, gate)[i].start <= StaysOf(events, gate)[i].end <= spans[i].end
    {
      FirstPassIsFirst(events, gate.passed, spans[i].start, NextStart(spans, i));
    }
  }

  /** Stay `i` is confirmed exactly when some pass label falls in its window, and
      one label falls in at most one window. */
  lemma {:induction false} PassConfirmsOneStay(events: seq<Event>, gate: Gate, e: Event, i: nat, j: nat)
    requires Chronological(events) && e in events
    requires var spans := ScanOf(events, gate.queue).spans;
      && i < |spans| && j < |spans|
      && InWindow(e, gate.passed, spans[i].start, NextStart(spans, i))
      && InWindow(e, gate.passed, spans[j].start, NextStart(spans, j))
    ensures i == j && StaysOf(events, gate)[i].confirmed
  {
    SpansInOrder(events, gate.queue);
    var spans := ScanOf(events, gate.queue).spans;
    FirstPassIsFirst(events, gate.passed, spans[i].start, NextStart(spans, i));
  }

  // ---- passages and rejections

  datatype Passage = Passage(gate: string, waited: int, at: int)

  function Confirmed(stays: seq<Stay>): seq<Stay> {
    if stays == [] then []
    else if Last(stays).confirmed then Confirmed(Init(stays)) + [Last(stays)]
    else Confirmed(Init(stays))
  }

  function Unconfirmed(stays: seq<Stay>): seq<Stay> {
    if stays == [] then []
    else if !Last(stays).confirmed then Unconfirmed(Init(stays)) + [Last(stays)]
    else Unconfirmed(Init(stays))
  }

  function PassageOf(gate: Gate, stay: Stay): Passage {
    Passage(gate.name, stay.end - stay.start, stay.end)
  }

  function GatePassages(events: seq<Event>, gate: Gate): seq<Passage> {
    var stays := Confirmed(StaysOf(events, gate));
    seq(|stays|, i requires 0 <= i < |stays| => PassageOf(gate, stays[i]))
  }

  /** gate_passages: every confirmed passage, in pipeline then stay order. */
  function Passages(events: seq<Event>): seq<Passage> {
    GatePassages(events, GATES[0]) + GatePassages(events, GATES[1]) + GatePassages(events, GATES[2])
  }

  /** Passages and rejections partition the completed stays. */
  lemma {:induction false} StaysPartition(stays: seq<Stay>)
    ensures multiset(Confirmed(stays)) + multiset(Unconfirmed(stays)) == multiset(stays)
    ensures forall s :: s in Confirmed(stays) ==> s.confirmed
    ensures forall s :: s in Unconfirmed(stays) ==> !s.confirmed
  {
    if stays != [] {
      StaysPartition(Init(stays));
      assert stays == Init(stays) + [Last(stays)];
    }
  }

  lemma {:induction false} ConfirmedAre(stays: seq<Stay>)
    ensures forall s :: s in Confirmed(stays) <==> s in stays && s.confirmed
  {
    if stays != [] {
      ConfirmedAre(Init(stays));
      assert stays == Init(stays) + [Last(stays)];
    }
  }

  /** No wait is negative: every gate row can be written. */
  lemma WaitsAreWhole(events: seq<Event>, gate: Gate)
    requires Chronological(events)
    ensures forall p :: p in GatePassages(events, gate) ==> p.waited >= 0
  {
    StaysInOrder(events, gate);
    ConfirmedAre(StaysOf(events, gate));
  }

  /** A confirmed stay in the queue of this name and labels, waited from start to end. */
  ghost predicate Passed(events: seq<Event>, p: Passage, queue: Label, passed: Label) {
    exists s :: s in StaysOf(events, Gate(p.gate, queue, passed)) && s.confirmed
                && p.waited == s.end - s.start && p.at == s.end
  }

  lemma {:induction false} GatePassagesAre(events: seq<Event>, gate: Gate, p: Passage)
    ensures p in GatePassages(events, gate) <==> p.gate == gate.name && Passed(events, p, gate.queue, gate.passed)
  {
    var stays := Confirmed(StaysOf(events, gate));
    ConfirmedAre(StaysOf(events, gate));
    if p.gate == gate.name && Passed(events, p, gate.queue, gate.passed) {
      assert Gate(p.gate, gate.queue, gate.passed) == gate;
      var s :| s in StaysOf(events, gate) && s.confirmed && p.waited == s.end - s.start && p.at == s.end;
      var i :| 0 <= i < |stays| && stays[i] == s;
      assert GatePassages(events, gate)[i] == p;
    }
  }

  /** A draft waits at the prd gate for its approval, an approved PRD at the blueprint gate,
      and what needs review at the merge gate; their passages are the issue's, and no other. */
  lemma {:induction false} PassagesAreOfTheGates(events: seq<Event>, p: Passage)
    ensures p in Passages(events) <==>
      || (p.gate == "prd" && Passed(events, p, Draft, PrdApproved))
      || (p.gate == "blueprint" && Passed(events, p, PrdApproved, BlueprintApproved))
      || (p.gate == "merge" && Passed(events, p, NeedsReview, MergedLabel))
  {
    GatePassagesAre(events, GATES[0], p);
    GatePassagesAre(events, GATES[1], p);
    GatePassagesAre(events, GATES[2], p);
  }

  // ---- rescanning a longer history

  /** `more` is chronological and strictly later than everything in `events`. */
  predicate Later(events: seq<Event>, more: seq<Event>) {
    && Chronological(more)
    && forall e, f :: e in events && f in more ==> e.at < f.at
  }

  /** The queue was re-entered and is still open, the last completed stay reads as
      confirmed, but every pass label of its window came after the re-entry. */
  predicate ConfirmedByReentry(events: seq<Event>, gate: Gate) {
    var s := ScanOf(events, gate.queue);
    && s.entered.Some? && s.spans != []
    && FirstPass(events, gate.passed, Last(s.spans).start, None).Some?
    && FirstPass(events, gate.passed, Last(s.spans).start, s.entered).None?
  }

  /** A scan of a longer history: its further spans, and its open one unless it was
      open before, start after the earlier events. */
  ghost predicate Grown(s: Scan, t: Scan, events: seq<Event>) {
    && s.spans <= t.spans
    && (|t.spans| > |s.spans| ==>
          var start := t.spans[|s.spans|].start;
          (s.entered.Some? && start == s.entered.value) || forall e :: e in events ==> e.at < start)
    && (t.entered.Some? ==> t.entered == s.entered || forall e :: e in events ==> e.at < t.entered.value)
  }

  lemma ScanGrowsByOne(s: Scan, t: Scan, t': Scan, events: seq<Event>, e: Event, queue: Label)
    requires Grown(s, t, events) && forall f :: f in events ==> f.at < e.at
    requires t' == if e.name != queue then t
                   else if e.labeled then t.(entered := Some(e.at))
                   else if t.entered.Some? then Scan(t.spans + [Span(t.entered.value, e.at)], None)
                   else t
    ensures Grown(s, t', events)
  {
  }

  lemma {:induction false} ScanGrows(events: seq<Event>, more: seq<Event>, queue: Label)
    requires Later(events, more)
    ensures Grown(ScanOf(events, queue), ScanOf(events + more, queue), events)
    decreases |more|
  {
    if more == [] {
      assert events + more == events;
    } else {
      var before, last := Init(more), Last(more);
      LaterInit(events, more);
      ScanGrows(events, before, queue);
      InitAndLast(events + before, last);
      ScanGrowsByOne(ScanOf(events, queue), ScanOf(events + before, queue), ScanOf(events + more, queue),
                     events, last, queue);
    }
  }

  /** An event after the first pass, or after the window, changes nothing. */
  lemma {:induction false} PassStep(events: seq<Event>, e: Event, passed: Label, start: int, next: Option<int>)
    requires var first := FirstPass(events, passed, start, next);
      (first.Some? && first.value <= e.at) || (next.Some? && e.at >= next.value)
    ensures FirstPass(events + [e], passed, start, next) == FirstPass(events, passed, start, next)
  {
    assert Init(events + [e]) == events && Last(events + [e]) == e;
  }

  /** The first pass is found, or the window is over, within the events. */
  ghost predicate PassSettled(events: seq<Event>, passed: Label, start: int, next: Option<int>) {
    || FirstPass(events, passed, start, next).Some?
    || (next.Some? && exists e :: e in events && e.at >= next.value)
  }

  lemma {:induction false} SettledBefore(events: seq<Event>, e: Event, passed: Label, start: int, next: Option<int>)
    requires PassSettled(events, passed, start, next) && forall f :: f in events ==> f.at < e.at
    ensures var first := FirstPass(events, passed, start, next);
      (first.Some? && first.value <= e.at) || (next.Some? && e.at >= next.value)
  {
    FirstPassIsFirst(events, passed, start, next);
  }

  lemma LaterInit(events: seq<Event>, more: seq<Event>)
    requires Later(events, more) && more != []
    ensures Later(events, Init(more)) && forall e :: e in events ==> e.at < Last(more).at
    ensures events + more == (events + Init(more)) + [Last(more)]
  {
    assert Last(more) in more && forall f :: f in Init(more) ==> f in more;
  }

  lemma {:induction false} PassGrows(events: seq<Event>, more: seq<Event>, passed: Label, start: int, next: Option<int>)
    requires Later(events, more) && PassSettled(events, passed, start, next)
    ensures FirstPass(events + more, passed, start, next) == FirstPass(events, passed, start, next)
    decreases |more|
  {
    if more == [] {
      assert events + more == events;
    } else {
      LaterInit(events, more);
      PassGrows(events, Init(more), passed, start, next);
      SettledBefore(events, Last(more), passed, start, next);
      PassStep(events + Init(more), Last(more), passed, start, next);
    }
  }

  /** A wider window keeps a first pass that lies before the narrower one's end. */
  lemma {:induction false} WindowNarrows(events: seq<Event>, passed: Label, start: int, wide: Option<int>,
                                         narrow: Option<int>)
    requires wide.None? || (narrow.Some? && narrow.value <= wide.value)
    requires FirstPass(events, passed, start, narrow).Some?
    ensures FirstPass(events, passed, start, wide) == FirstPass(events, passed, start, narrow)
  {
    FirstPassIsFirst(events, passed, start, wide);
    FirstPassIsFirst(events, passed, start, narrow);
    var first := FirstPass(events, passed, start, narrow).value;
    var e :| e in events && InWindow(e, passed, start, narrow) && e.at == first;
    assert InWindow(e, passed, start, wide);
    forall f | f in events && InWindow(f, passed, start, wide)
      ensures first <= f.at
    {
      if !InWindow(f, passed, start, narrow) { assert f.at >= narrow.value > first; }
    }
  }

  lemma {:induction false} SpanStartsAreEvents(events: seq<Event>, queue: Label)
    ensures forall span :: span in ScanOf(events, queue).spans ==> exists e :: e in events && e.at == span.start
  {
    if events != [] {
      SpanStartsAreEvents(Init(events), queue);
      EnteredIsEvent(Init(events), queue);
      assert events == Init(events) + [Last(events)];
      forall span | span in ScanOf(events, queue).spans
        ensures exists e :: e in events && e.at == span.start
      {
        if span in ScanOf(Init(events), queue).spans {
          var e :| e in Init(events) && e.at == span.start;
          assert e in events;
        } else {
          var e :| e in Init(events) && e.at == span.start;
          assert e in events;
        }
      }
    }
  }

  lemma {:induction false} EnteredIsEvent(events: seq<Event>, queue: Label)
    ensures var s := ScanOf(events, queue); s.entered.Some? ==> exists e :: e in events && e.at == s.entered.value
  {
    if events != [] {
      EnteredIsEvent(Init(events), queue);
      assert events == Init(events) + [Last(events)];
      assert Last(events) in events;
      if ScanOf(Init(events), queue).entered.Some? {
        var e :| e in Init(events) && e.at == ScanOf(Init(events), queue).entered.value;
        assert e in events;
      }
    }
  }

  /** A rescan of a strictly later history leaves every confirmed stay as it was,
      unless the last of them was confirmed by the re-entry that follows it. */
  lemma ConfirmedStaysStay(events: seq<Event>, more: seq<Event>, gate: Gate, i: nat)
    requires Later(events, more)
    requires !ConfirmedByReentry(events, gate)
    requires i < |StaysOf(events, gate)| && StaysOf(events, gate)[i].confirmed
    ensures i < |StaysOf(events + more, gate)| && StaysOf(events + more, gate)[i] == StaysOf(events, gate)[i]
  {
    var s, t := ScanOf(events, gate.queue), ScanOf(events + more, gate.queue);
    ScanGrows(events, more, gate.queue);
    var start := s.spans[i].start;
    assert t.spans[i] == s.spans[i];
    var next, next' := NextStart(s.spans, i), NextStart(t.spans, i);
    if i + 1 < |s.spans| {
      assert next' == next;
      SpanStartsAreEvents(events, gate.queue);
      assert s.spans[i + 1] in s.spans;
      PassGrows(events, more, gate.passed, start, next);
    } else if next'.None? {
      PassGrows(events, more, gate.passed, start, None);
    } else {
      NewWindow(events, gate, next'.value);
      PassGrows(events, more, gate.passed, start, next');
    }
  }

  /** The last confirmed stay keeps its first pass when a later stay closes its window. */
  lemma {:induction false} NewWindow(events: seq<Event>, gate: Gate, next: int)
    requires !ConfirmedByReentry(events, gate)
    requires var s := ScanOf(events, gate.queue);
      && s.spans != [] && FirstPass(events, gate.passed, Last(s.spans).start, None).Some?
      && ((s.entered.Some? && next == s.entered.value) || forall e :: e in events ==> e.at < next)
    ensures var start := Last(ScanOf(events, gate.queue).spans).start;
      && FirstPass(events, gate.passed, start, Some(next)).Some?
      && FirstPass(events, gate.passed, start, Some(next)) == FirstPass(events, gate.passed, start, None)
  {
    var s := ScanOf(events, gate.queue);
    var start := Last(s.spans).start;
    FirstPassIsFirst(events, gate.passed, start, None);
    FirstPassIsFirst(events, gate.passed, start, Some(next));
    if forall e :: e in events ==> e.at < next {
      var e :| e in events && InWindow(e, gate.passed, start, None);
      assert InWindow(e, gate.passed, start, Some(next));
    }
    WindowNarrows(events, gate.passed, start, None, Some(next));
  }

  /** And in that one case a rescan does drop it: once the open stay is left, the
      last completed stay is confirmed no longer. */
  lemma ReentryDropsThePassage(events: seq<Event>, gate: Gate) returns (more: seq<Event>)
    requires Chronological(events) && ConfirmedByReentry(events, gate)
    ensures Later(events, more)
    ensures var i := |StaysOf(events, gate)| - 1;
      && StaysOf(events, gate)[i].confirmed
      && i < |StaysOf(events + more, gate)| && !StaysOf(events + more, gate)[i].confirmed
  {
    var s := ScanOf(events, gate.queue);
    var left := Event(Last(events).at + 1, false, gate.queue);
    more := [left];
    assert forall e :: e in events ==> e.at <= Last(events).at;
    InitAndLast(events, left);
    var t := ScanOf(events + more, gate.queue);
    assert t.spans == s.spans + [Span(s.entered.value, left.at)];
    var i := |s.spans| - 1;
    assert NextStart(t.spans, i) == s.entered && t.spans[i] == s.spans[i];
    SpansInOrder(events, gate.queue);
    assert FirstPass(events + more, gate.passed, s.spans[i].start, s.entered)
        == FirstPass(events, gate.passed, s.spans[i].start, s.entered);
  }

  lemma InitAndLast(events: seq<Event>, e: Event)
    ensures Init(events + [e]) == events && Last(events + [e]) == e
  {
  }

  /** No gate's last completed stay was confirmed by a re-entry. */
  predicate Settled(events: seq<Event>) {
    forall gate :: gate in GATES ==> !ConfirmedByReentry(events, gate)
  }

  lemma GatePassagesStay(events: seq<Event>, more: seq<Event>, gate: Gate)
    requires Later(events, more) && !ConfirmedByReentry(events, gate)
    ensures forall p :: p in GatePassages(events, gate) ==> p in GatePassages(events + more, gate)
  {
    var stays, stays' := StaysOf(events, gate), StaysOf(events + more, gate);
    ConfirmedAre(stays);
    ConfirmedAre(stays');
    forall p | p in GatePassages(events, gate)
      ensures p in GatePassages(events + more, gate)
    {
      var k :| 0 <= k < |Confirmed(stays)| && p == PassageOf(gate, Confirmed(stays)[k]);
      assert Confirmed(stays)[k] in stays;
      var i :| 0 <= i < |stays| && stays[i] == Confirmed(stays)[k];
      ConfirmedStaysStay(events, more, gate, i);
      assert stays'[i] in Confirmed(stays');
      var n :| 0 <= n < |Confirmed(stays')| && Confirmed(stays')[n] == stays[i];
      assert GatePassages(events + more, gate)[n] == p;
    }
  }

  /** Every confirmed passage of a settled history is one of any strictly later
      history: same gate, same wait, same end. */
  lemma PassagesStay(events: seq<Event>, more: seq<Event>)
    requires Later(events, more) && Settled(events)
    ensures forall p :: p in Passages(events) ==> p in Passages(events + more)
  {
    assert GATES[0] in GATES && GATES[1] in GATES && GATES[2] in GATES;
    GatePassagesStay(events, more, GATES[0]);
    GatePassagesStay(events, more, GATES[1]);
    GatePassagesStay(events, more, GATES[2]);
  }

  /** Every confirmed stay is the same stay in the longer history. */
  ghost predicate StaysKept(events: seq<Event>, more: seq<Event>, gate: Gate) {
    var stays, stays' := StaysOf(events, gate), StaysOf(events + more, gate);
    |stays| <= |stays'| && forall i :: 0 <= i < |stays| && stays[i].confirmed ==> stays'[i] == stays[i]
  }

  /** A history is safe to record from exactly when no gate of it is confirmed by a
      re-entry: then, and only then, no later history changes a confirmed stay. */
  lemma SafeIffNotReentered(events: seq<Event>, gate: Gate)
    requires Chronological(events)
    ensures (forall more :: Later(events, more) ==> StaysKept(events, more, gate))
       <==> !ConfirmedByReentry(events, gate)
  {
    if ConfirmedByReentry(events, gate) {
      var more := ReentryDropsThePassage(events, gate);
      assert !StaysKept(events, more, gate);
    } else {
      forall more | Later(events, more)
        ensures StaysKept(events, more, gate)
      {
        ScanGrows(events, more, gate.queue);
        forall i | 0 <= i < |StaysOf(events, gate)| && StaysOf(events, gate)[i].confirmed
          ensures StaysOf(events + more, gate)[i] == StaysOf(events, gate)[i]
        {
          ConfirmedStaysStay(events, more, gate, i);
        }
      }
    }
  }

  // ---- one passage, one timestamp

  lemma {:induction false} ConfirmedIndex(stays: seq<Stay>, a: nat, b: nat) returns (i: nat, j: nat)
    requires a < b < |Confirmed(stays)|
    ensures i < j < |stays| && stays[i] == Confirmed(stays)[a] && stays[j] == Confirmed(stays)[b]
  {
    ConfirmedAre(Init(stays));
    if b < |Confirmed(Init(stays))| {
      i, j := ConfirmedIndex(Init(stays), a, b);
    } else {
      assert Confirmed(stays)[a] in Confirmed(Init(stays));
      i :| 0 <= i < |Init(stays)| && Init(stays)[i] == Confirmed(stays)[a];
      j := |stays| - 1;
    }
  }

  /** No two passages of a gate end at one timestamp: a confirmed stay ends no later
      than its pass, which comes before the next stay starts. */
  lemma PassageEndsDiffer(events: seq<Event>, gate: Gate, a: nat, b: nat)
    requires Chronological(events)
    requires a < b < |GatePassages(events, gate)|
    ensures GatePassages(events, gate)[a].at < GatePassages(events, gate)[b].at
  {
    var stays := StaysOf(events, gate);
    var i, j := ConfirmedIndex(stays, a, b);
    ConfirmedAre(stays);
    assert stays[i].confirmed by { assert Confirmed(stays)[a] in Confirmed(stays); }
    ConfirmedEndsBefore(events, gate, i, j);
  }

  lemma ConfirmedEndsBefore(events: seq<Event>, gate: Gate, i: nat, j: nat)
    requires Chronological(events)
    requires var stays := StaysOf(events, gate); i < j < |stays| && stays[i].confirmed
    ensures StaysOf(events, gate)[i].end < StaysOf(events, gate)[j].end
  {
    var stays := StaysOf(events, gate);
    StaysInOrder(events, gate);
    SpansInOrder(events, gate.queue);
    var spans := ScanOf(events, gate.queue).spans;
    FirstPassIsFirst(events, gate.passed, spans[i].start, NextStart(spans, i));
    assert stays[i].end < spans[i + 1].start <= spans[j].start == stays[j].start <= stays[j].end;
  }

  /** The end of a passage names it within its gate, and so within the history. */
  lemma PassagesDiffer(events: seq<Event>, a: nat, b: nat)
    requires Chronological(events) && a < b < |Passages(events)|
    ensures Passages(events)[a].gate != Passages(events)[b].gate || Passages(events)[a].at != Passages(events)[b].at
  {
    var first, second := GatePassages(events, GATES[0]), GatePassages(events, GATES[1]);
    var third := GatePassages(events, GATES[2]);
    GateNamesDiffer();
    if b < |first| {
      PassageEndsDiffer(events, GATES[0], a, b);
    } else if |first| <= a && b < |first| + |second| {
      PassageEndsDiffer(events, GATES[1], a - |first|, b - |first|);
    } else if |first| + |second| <= a {
      PassageEndsDiffer(events, GATES[2], a - |first| - |second|, b - |first| - |second|);
    }
  }

  lemma GateNamesDiffer()
    ensures GATES[0].name != GATES[1].name && GATES[0].name != GATES[2].name && GATES[1].name != GATES[2].name
  {
    assert |GATES[0].name| == 3 && |GATES[1].name| == 9 && |GATES[2].name| == 5;
  }
}
