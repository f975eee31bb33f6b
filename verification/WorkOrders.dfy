/** The work-order index (tools/factory/knowledge_plane.py, work_orders): the row a
    work order or a tracker issue owns, and the clashes of rows that share one. A
    row's place in the walk over the breakdowns stands for its path and line. */
module WorkOrders {
  import opened Rows

  /** What a row can be looked up by: a WO token, by its digits, or a tracker issue. */
  datatype Key = Token(wo: nat) | Tracker(issue: nat)

  /** A breakdown row's two keys, either of which it may lack. */
  datatype BreakdownRow = BreakdownRow(wo: Option<nat>, issue: Option<nat>)
  {
    predicate Holds(key: Key) {
      match key
      case Token(number) => wo == Some(number)
      case Tracker(number) => issue == Some(number)
    }

    function Keys(): (keys: seq<Key>)
      ensures forall key :: key in keys <==> Holds(key)
      ensures forall i, j :: 0 <= i < j < |keys| ==> keys[i] != keys[j]
    {
      (if wo.Some? then [Token(wo.value)] else []) + (if issue.Some? then [Tracker(issue.value)] else [])
    }
  }

  /** The row at `later` names a key the row at `first` owns. */
  datatype Clash = Clash(key: Key, later: nat, first: nat)
  {
    predicate Names(place: nat) {
      later == place || first == place
    }
  }

  /** The first row naming the key, or the number of rows when none does. */
  function First(rows: seq<BreakdownRow>, key: Key): (place: nat)
    ensures place <= |rows|
  {
    if rows == [] then 0
    else if First(Init(rows), key) < |rows| - 1 then First(Init(rows), key)
    else if Last(rows).Holds(key) then |rows| - 1
    else |rows|
  }

  lemma {:induction false} FirstIsFirst(rows: seq<BreakdownRow>, key: Key)
    ensures var place := First(rows, key);
      && (place < |rows| ==> rows[place].Holds(key))
      && (forall i :: 0 <= i < |rows| && i < place ==> !rows[i].Holds(key))
  {
    if rows != [] {
      FirstIsFirst(Init(rows), key);
      assert forall i :: 0 <= i < |rows| - 1 ==> Init(rows)[i] == rows[i];
    }
  }

  /** The clash one key of the next row makes with the row that owns it, if any. */
  function KeyClash(before: seq<BreakdownRow>, key: Key): seq<Clash> {
    if First(before, key) < |before| then [Clash(key, |before|, First(before, key))] else []
  }

  /** The clashes the next row's keys make with the rows before it. */
  function KeyClashes(before: seq<BreakdownRow>, keys: seq<Key>): seq<Clash> {
    if keys == [] then []
    else KeyClashes(before, Init(keys)) + KeyClash(before, Last(keys))
  }

  function Problems(rows: seq<BreakdownRow>): seq<Clash> {
    if rows == [] then [] else Problems(Init(rows)) + KeyClashes(Init(rows), Last(rows).Keys())
  }

  /** The clashes that name a place, in order. */
  function Naming(clashes: seq<Clash>, place: nat): seq<Clash> {
    if clashes == [] then []
    else Naming(Init(clashes), place) + if Last(clashes).Names(place) then [Last(clashes)] else []
  }

  // ---- which clashes there are

  /** The later row names a key that an earlier row was the first to name. */
  predicate Shares(rows: seq<BreakdownRow>, clash: Clash) {
    && clash.first < clash.later < |rows|
    && rows[clash.later].Holds(clash.key)
    && clash.first == First(rows, clash.key)
  }

  lemma {:induction false} KeyClashesAre(before: seq<BreakdownRow>, keys: seq<Key>, clash: Clash)
    ensures clash in KeyClashes(before, keys)
       <==> clash.key in keys && clash.later == |before| && clash.first == First(before, clash.key) < |before|
  {
    if keys != [] {
      KeyClashesAre(before, Init(keys), clash);
      assert keys == Init(keys) + [Last(keys)];
    }
  }

  lemma {:induction false} FirstStays(rows: seq<BreakdownRow>, n: nat, key: Key)
    requires n <= |rows|
    ensures First(rows[..n], key) < n ==> First(rows, key) == First(rows[..n], key)
    ensures First(rows, key) < n ==> First(rows[..n], key) == First(rows, key)
  {
    if n < |rows| {
      FirstStays(Init(rows), n, key);
      assert Init(rows)[..n] == rows[..n];
    } else {
      assert rows[..n] == rows;
    }
  }

  lemma SharesSnoc(rows: seq<BreakdownRow>, clash: Clash)
    requires rows != []
    ensures Shares(rows, clash) <==>
      || Shares(Init(rows), clash)
      || (&& Last(rows).Holds(clash.key) && clash.later == |rows| - 1
          && clash.first == First(Init(rows), clash.key) < |rows| - 1)
  {
    assert Init(rows) == rows[..|rows| - 1];
    FirstStays(rows, |rows| - 1, clash.key);
  }

  /** A problem is reported for every row naming a key another row named first, and for nothing else. */
  lemma {:induction false} ProblemsAreShared(rows: seq<BreakdownRow>, clash: Clash)
    ensures clash in Problems(rows) <==> Shares(rows, clash)
  {
    if rows != [] {
      ProblemsAreShared(Init(rows), clash);
      KeyClashesAre(Init(rows), Last(rows).Keys(), clash);
      SharesSnoc(rows, clash);
    }
  }

  /** Two different rows name the key. */
  predicate Twice(rows: seq<BreakdownRow>, key: Key, i: nat, j: nat) {
    i < |rows| && j < |rows| && i != j && rows[i].Holds(key) && rows[j].Holds(key)
  }

  /** A problem exists exactly when two rows share a key. */
  lemma {:induction false} ProblemIffTwoRowsShare(rows: seq<BreakdownRow>)
    ensures Problems(rows) != [] <==> exists key, i, j :: Twice(rows, key, i, j)
  {
    if Problems(rows) != [] {
      var clash := Problems(rows)[0];
      ProblemsAreShared(rows, clash);
      FirstIsFirst(rows, clash.key);
      assert Twice(rows, clash.key, clash.first, clash.later);
    }
    if key, i: nat, j: nat :| Twice(rows, key, i, j) {
      var clash := TwiceClashes(rows, key, i, j);
    }
  }

  /** Two rows sharing a key: a clash names the first of them, or each of them. */
  lemma TwiceClashes(rows: seq<BreakdownRow>, key: Key, i: nat, j: nat) returns (clash: Clash)
    requires Twice(rows, key, i, j)
    ensures clash in Problems(rows) && clash.Names(i)
  {
    FirstIsFirst(rows, key);
    var first := First(rows, key);
    clash := Clash(key, if first == i then j else i, first);
    ProblemsAreShared(rows, clash);
  }

  lemma {:induction false} NamingHolds(clashes: seq<Clash>, place: nat, clash: Clash)
    ensures clash in Naming(clashes, place) <==> clash in clashes && clash.Names(place)
  {
    if clashes != [] {
      NamingHolds(Init(clashes), place, clash);
      assert clashes == Init(clashes) + [Last(clashes)];
    }
  }

  /** No other row names any of the row's keys. */
  ghost predicate SoleHolder(rows: seq<BreakdownRow>, place: nat) {
    forall key, j: nat :: !Twice(rows, key, place, j)
  }

  /** A row carries no clash exactly when it is the sole holder of its work order and of its issue. */
  lemma {:induction false} CleanIffSoleHolder(rows: seq<BreakdownRow>, place: nat)
    requires place < |rows|
    ensures Naming(Problems(rows), place) == [] <==> SoleHolder(rows, place)
  {
    if Naming(Problems(rows), place) != [] {
      var clash := Naming(Problems(rows), place)[0];
      NamingHolds(Problems(rows), place, clash);
      ProblemsAreShared(rows, clash);
      FirstIsFirst(rows, clash.key);
      assert Twice(rows, clash.key, place, if clash.first == place then clash.later else clash.first);
    }
    if !SoleHolder(rows, place) {
      var key, j: nat :| Twice(rows, key, place, j);
      var clash := TwiceClashes(rows, key, place, j);
      NamingHolds(Problems(rows), place, clash);
    }
  }

  lemma {:induction false} SoleHolderIsFirst(rows: seq<BreakdownRow>, place: nat, key: Key)
    requires place < |rows| && SoleHolder(rows, place) && rows[place].Holds(key)
    ensures First(rows, key) == place
  {
    FirstIsFirst(rows, key);
    if First(rows, key) != place {
      assert Twice(rows, key, place, First(rows, key));
    }
  }

  // ---- the index

  /** A row's record, shared by every key that finds it; `clashes` grows in place. */
  class Record {
    const row: BreakdownRow
    const place: nat
    var clashes: seq<Clash>

    constructor (row: BreakdownRow, place: nat)
      ensures this.row == row && this.place == place && clashes == []
    {
      this.row, this.place, clashes := row, place, [];
    }
  }

  /** The index and its records hold exactly what the rows say. */
  ghost predicate Indexed(rows: seq<BreakdownRow>, records: seq<Record>, index: map<Key, Record>) {
    && |records| == |rows|
    && (forall i :: 0 <= i < |rows| ==> records[i].row == rows[i] && records[i].place == i)
    && (forall key :: key in index <==> First(rows, key) < |rows|)
    && (forall key :: key in index ==> index[key] == records[First(rows, key)])
  }

  ghost predicate Noted(records: seq<Record>, problems: seq<Clash>)
    reads records
  {
    forall i :: 0 <= i < |records| ==> records[i].clashes == Naming(problems, i)
  }

  lemma {:induction false} NamingSnoc(clashes: seq<Clash>, clash: Clash, place: nat)
    ensures Naming(clashes + [clash], place) == Naming(clashes, place) + if clash.Names(place) then [clash] else []
  {
    assert Init(clashes + [clash]) == clashes;
  }

  ghost predicate Distinct(records: seq<Record>) {
    forall i, j :: 0 <= i < j < |records| ==> records[i] != records[j]
  }

  /** The clash joins the problems and the clashes of both rows it names. */
  method Note(records: seq<Record>, problems: seq<Clash>, clash: Clash) returns (noted: seq<Clash>)
    requires clash.first < clash.later < |records| && Noted(records, problems)
    requires Distinct(records)
    modifies records
    ensures noted == problems + [clash] && Noted(records, noted)
  {
    noted := problems + [clash];
    records[clash.first].clashes := records[clash.first].clashes + [clash];
    records[clash.later].clashes := records[clash.later].clashes + [clash];
    forall i | 0 <= i < |records|
      ensures records[i].clashes == Naming(noted, i)
    {
      NamingSnoc(problems, clash, i);
    }
  }

  lemma {:induction false} NoneNamed(clashes: seq<Clash>, place: nat)
    requires forall clash :: clash in clashes ==> !clash.Names(place)
    ensures Naming(clashes, place) == []
  {
    if clashes != [] {
      assert clashes == Init(clashes) + [Last(clashes)];
      NoneNamed(Init(clashes), place);
    }
  }

  lemma {:induction false} ProblemsNameNoLaterRow(rows: seq<BreakdownRow>)
    ensures Naming(Problems(rows), |rows|) == []
  {
    forall clash | clash in Problems(rows)
      ensures !clash.Names(|rows|)
    {
      ProblemsAreShared(rows, clash);
    }
    NoneNamed(Problems(rows), |rows|);
  }

  /** The record just appended, indexed by its first keys; the rows before it stay indexed. */
  ghost predicate Indexing(before: seq<BreakdownRow>, records: seq<Record>, index: map<Key, Record>, keys: seq<Key>)
    requires |records| == |before| + 1
  {
    && (forall key :: key in index <==> First(before, key) < |before| || key in keys)
    && (forall key :: key in index ==>
          index[key] == if First(before, key) < |before| then records[First(before, key)] else Last(records))
  }

  lemma {:induction false} KeyClaimed(before: seq<BreakdownRow>, records: seq<Record>, index: map<Key, Record>,
                                      done: seq<Key>, key: Key)
    requires |records| == |before| + 1 && Indexing(before, records, index, done) && key !in index
    ensures Indexing(before, records, index[key := Last(records)], done + [key])
    ensures First(before, key) >= |before|
  {
  }

  lemma {:induction false} KeyOwned(before: seq<BreakdownRow>, records: seq<Record>, index: map<Key, Record>,
                                    done: seq<Key>, key: Key)
    requires |records| == |before| + 1 && Indexing(before, records, index, done) && key in index && key !in done
    ensures Indexing(before, records, index, done + [key])
    ensures First(before, key) < |before| && index[key] == records[First(before, key)]
  {
  }

  /** One key of a row: claimed, or clashing with the record that owns it. */
  method IndexKey(before: seq<BreakdownRow>, key: Key, records: seq<Record>, index: map<Key, Record>,
                  problems: seq<Clash>, ghost done: seq<Key>)
    returns (indexed: map<Key, Record>, noted: seq<Clash>)
    requires |records| == |before| + 1 && Distinct(records) && key !in done
    requires forall i :: 0 <= i < |records| ==> records[i].place == i
    requires Indexing(before, records, index, done) && Noted(records, problems)
    modifies records
    ensures Indexing(before, records, indexed, done + [key]) && Noted(records, noted)
    ensures noted == problems + KeyClash(before, key)
  {
    indexed, noted := index, problems;
    if key !in index {
      KeyClaimed(before, records, index, done, key);
      indexed := index[key := records[|records| - 1]];
    } else {
      KeyOwned(before, records, index, done, key);
      noted := Note(records, problems, Clash(key, |before|, index[key].place));
    }
  }

  lemma {:induction false} KeyClashesSnoc(problems: seq<Clash>, before: seq<BreakdownRow>, done: seq<Key>, key: Key)
    ensures problems + KeyClashes(before, done + [key]) == (problems + KeyClashes(before, done)) + KeyClash(before, key)
  {
    assert Init(done + [key]) == done && Last(done + [key]) == key;
    var so, more := KeyClashes(before, done), KeyClash(before, key);
    assert KeyClashes(before, done + [key]) == so + more;
    assert problems + (so + more) == (problems + so) + more;
  }

  /** One row's keys, in order. */
  method IndexRow(before: seq<BreakdownRow>, row: BreakdownRow, records: seq<Record>, index: map<Key, Record>,
                  problems: seq<Clash>)
    returns (indexed: map<Key, Record>, noted: seq<Clash>)
    requires |records| == |before| + 1 && Distinct(records)
    requires forall i :: 0 <= i < |records| ==> records[i].place == i
    requires Indexing(before, records, index, []) && Noted(records, problems)
    modifies records
    ensures Indexing(before, records, indexed, row.Keys())
    ensures noted == problems + KeyClashes(before, row.Keys()) && Noted(records, noted)
  {
    indexed, noted := index, problems;
    var keys := row.Keys();
    ghost var done := [];
    for m := 0 to |keys|
      invariant done == keys[..m]
      invariant Indexing(before, records, indexed, done)
      invariant noted == problems + KeyClashes(before, done) && Noted(records, noted)
    {
      KeyClashesSnoc(problems, before, done, keys[m]);
      indexed, noted := IndexKey(before, keys[m], records, indexed, noted, done);
      done := done + [keys[m]];
    }
    assert done == keys;
  }

  lemma RowStarts(before: seq<BreakdownRow>, records: seq<Record>, index: map<Key, Record>, record: Record)
    requires Indexed(before, records, index)
    ensures Indexing(before, records + [record], index, [])
  {
  }

  lemma RowIndexed(rows: seq<BreakdownRow>, records: seq<Record>, index: map<Key, Record>)
    requires rows != [] && |records| == |rows| && Indexing(Init(rows), records, index, Last(rows).Keys())
    requires forall i :: 0 <= i < |rows| ==> records[i].row == rows[i] && records[i].place == i
    ensures Indexed(rows, records, index)
  {
  }

  /** The records, the index and the problems are those of the rows. */
  ghost predicate Built(rows: seq<BreakdownRow>, records: seq<Record>, index: map<Key, Record>, problems: seq<Clash>)
    reads records
  {
    Distinct(records) && Indexed(rows, records, index) && problems == Problems(rows) && Noted(records, problems)
  }

  lemma NothingBuilt()
    ensures Built([], [], map[], [])
  {
  }

  /** The row's own record, which no clash names yet. */
  method OpenRecord(row: BreakdownRow, records: seq<Record>, problems: seq<Clash>) returns (record: Record)
    requires Distinct(records) && Noted(records, problems) && Naming(problems, |records|) == []
    ensures fresh(record) && record.row == row && record.place == |records|
    ensures Distinct(records + [record]) && Noted(records + [record], problems)
  {
    record := new Record(row, |records|);
  }

  lemma {:induction false} RowBuilt(before: seq<BreakdownRow>, row: BreakdownRow, records: seq<Record>,
                                    index: map<Key, Record>, problems: seq<Clash>)
    requires |records| == |before| + 1 && Distinct(records) && Indexing(before, records, index, row.Keys())
    requires forall i :: 0 <= i < |records| ==> records[i].row == (before + [row])[i] && records[i].place == i
    requires problems == Problems(before) + KeyClashes(before, row.Keys()) && Noted(records, problems)
    ensures Built(before + [row], records, index, problems)
  {
    assert Init(before + [row]) == before;
    RowIndexed(before + [row], records, index);
  }

  /** One row: its record, its keys, its clashes. */
  method AddRow(before: seq<BreakdownRow>, row: BreakdownRow, records: seq<Record>, index: map<Key, Record>,
                problems: seq<Clash>)
    returns (record: Record, indexed: map<Key, Record>, noted: seq<Clash>)
    requires Built(before, records, index, problems)
    modifies records
    ensures fresh(record) && Built(before + [row], records + [record], indexed, noted)
  {
    ProblemsNameNoLaterRow(before);
    record := OpenRecord(row, records, problems);
    RowStarts(before, records, index, record);
    indexed, noted := IndexRow(before, row, records + [record], index, problems);
    RowBuilt(before, row, records + [record], indexed, noted);
  }

  /** A record with no clash is what each of its row's keys finds. */
  ghost predicate Found(rows: seq<BreakdownRow>, records: seq<Record>, index: map<Key, Record>)
    requires |records| == |rows|
    reads records
  {
    forall i, key :: 0 <= i < |rows| && records[i].clashes == [] && rows[i].Holds(key) ==>
      key in index && index[key] == records[i]
  }

  lemma {:induction false} CleanRecordsAreFound(rows: seq<BreakdownRow>, records: seq<Record>, index: map<Key, Record>)
    requires Indexed(rows, records, index) && Noted(records, Problems(rows))
    ensures Found(rows, records, index)
  {
    forall i, key | 0 <= i < |rows| && Naming(Problems(rows), i) == [] && rows[i].Holds(key)
      ensures First(rows, key) == i
    {
      CleanRowIsFirst(rows, i, key);
    }
    FirstRowsAreFound(rows, records, index, Problems(rows));
  }

  lemma {:induction false} FirstRowsAreFound(rows: seq<BreakdownRow>, records: seq<Record>, index: map<Key, Record>,
                                             problems: seq<Clash>)
    requires Indexed(rows, records, index) && Noted(records, problems)
    requires forall i, key :: 0 <= i < |rows| && Naming(problems, i) == [] && rows[i].Holds(key) ==>
      First(rows, key) == i
    ensures Found(rows, records, index)
  {
  }

  lemma {:induction false} CleanRowIsFirst(rows: seq<BreakdownRow>, i: nat, key: Key)
    requires i < |rows| && Naming(Problems(rows), i) == [] && rows[i].Holds(key)
    ensures First(rows, key) == i
  {
    CleanIffSoleHolder(rows, i);
    SoleHolderIsFirst(rows, i, key);
  }

  /** Every row in turn. */
  method IndexRows(rows: seq<BreakdownRow>)
    returns (records: seq<Record>, index: map<Key, Record>, problems: seq<Clash>)
    ensures fresh(records) && Built(rows, records, index, problems)
  {
    records, index, problems := [], map[], [];
    var done := [];
    NothingBuilt();
    for n := 0 to |rows|
      invariant done == rows[..n]
      invariant fresh(records) && Built(done, records, index, problems)
    {
      var record;
      record, index, problems := AddRow(done, rows[n], records, index, problems);
      done, records := done + [rows[n]], records + [record];
    }
    assert done == rows;
  }

  /** work_orders: the first row owns a key, a later row naming it is a problem
      noted on both; a row with no clash is found by each of its keys. */
  method WorkOrders(rows: seq<BreakdownRow>)
    returns (records: seq<Record>, index: map<Key, Record>, problems: seq<Clash>)
    ensures fresh(records) && Indexed(rows, records, index)
    ensures problems == Problems(rows) && Noted(records, problems)
    ensures Found(rows, records, index)
  {
    records, index, problems := IndexRows(rows);
    CleanRecordsAreFound(rows, records, index);
  }
}
