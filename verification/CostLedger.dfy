/** The cost ledger (tools/factory/cost_ledger.py): an aggregate file and one file
    per run, written only through guarded writes that keep every row's identity
    unique. Costs are integer cents; a month is a number. */
module CostLedger {
  import opened Rows

  /** A run's id: a gate passage's, keyed by its timestamp, or any other text. */
  datatype RunKey = PassageId(gate: string, at: int) | TextId(text: string)

  datatype Spend = GateWait(gate: string, waited: int) | OwnerSession | Dispatched

  /** One spend row; `month` is absent on legacy rows. */
  datatype Entry = Entry(wo: string, run: RunKey, cost: nat, outcome: Spend, month: Option<nat>)

  datatype Key = Key(wo: string, run: RunKey)

  function KeyOf(e: Entry): Key {
    Key(e.wo, e.run)
  }

  /** The shape rule a well-typed row can still break: an owner session costs nothing. */
  predicate ShapeOk(e: Entry) {
    e.outcome == OwnerSession ==> e.cost == 0
  }

  // ---- the month's spend

  /** The rows that count as spend in a month. */
  predicate Counts(e: Entry, month: nat) {
    e.outcome == Dispatched && e.month == Some(month)
  }

  function Total(entries: seq<Entry>, month: nat): nat {
    if entries == [] then 0
    else Total(Init(entries), month) + if Counts(Last(entries), month) then Last(entries).cost else 0
  }

  lemma {:induction false} TotalAppends(a: seq<Entry>, b: seq<Entry>, month: nat)
    ensures Total(a + b, month) == Total(a, month) + Total(b, month)
  {
    if b == [] {
      assert a + b == a;
    } else {
      assert Init(a + b) == a + Init(b) && Last(a + b) == Last(b);
      TotalAppends(a, Init(b), month);
    }
  }

  function Keys(entries: seq<Entry>): set<Key> {
    set e | e in entries :: KeyOf(e)
  }

  predicate DistinctKeys(entries: seq<Entry>) {
    forall i, j :: 0 <= i < j < |entries| ==> KeyOf(entries[i]) != KeyOf(entries[j])
  }

  // ---- a batch of rows, each landing once

  /** The rows of a batch whose key is neither recorded nor earlier in the batch. */
  function NewRows(present: set<Key>, rows: seq<Entry>): seq<Entry> {
    if rows == [] then []
    else
      var landed := NewRows(present, Init(rows));
      if KeyOf(Last(rows)) in present + Keys(landed) then landed else landed + [Last(rows)]
  }

  lemma {:induction false} NewRowsStep(present: set<Key>, rows: seq<Entry>, i: nat)
    requires i < |rows|
    ensures var landed := NewRows(present, rows[..i]);
      NewRows(present, rows[..i + 1]) == if KeyOf(rows[i]) in present + Keys(landed) then landed else landed + [rows[i]]
  {
    assert Init(rows[..i + 1]) == rows[..i];
  }

  lemma {:induction false} NewRowsLand(present: set<Key>, rows: seq<Entry>)
    ensures var landed := NewRows(present, rows);
      && DistinctKeys(landed) && Keys(landed) !! present
      && present + Keys(landed) == present + Keys(rows)
      && forall e :: e in landed ==> e in rows
  {
    if rows != [] {
      var before := Init(rows);
      NewRowsLand(present, before);
      assert rows == before + [Last(rows)];
      KeysGrow(before, rows, Last(rows));
      var landed := NewRows(present, before);
      KeysGrow(landed, landed + [Last(rows)], Last(rows));
    }
  }

  /** Of the rows handed over, the first of each new key lands, and no other. */
  lemma {:induction false} FirstOfEachLands(present: set<Key>, rows: seq<Entry>, i: nat)
    requires i < |rows|
    ensures |NewRows(present, rows[..i + 1])| == |NewRows(present, rows[..i])|
              + if KeyOf(rows[i]) in present || KeyOf(rows[i]) in Keys(rows[..i]) then 0 else 1
    ensures NewRows(present, rows[..i]) <= NewRows(present, rows[..i + 1])
    ensures |NewRows(present, rows[..i + 1])| > |NewRows(present, rows[..i])| ==>
      Last(NewRows(present, rows[..i + 1])) == rows[i]
  {
    NewRowsStep(present, rows, i);
    NewRowsLand(present, rows[..i]);
  }

  /** Two rows share an identity exactly when they name one work order and one run. */
  lemma KeysAgree(e: Entry, f: Entry)
    ensures KeyOf(e) == KeyOf(f) <==> e.wo == f.wo && e.run == f.run
  {
  }

  /** Handing the same rows over again lands nothing. */
  lemma {:induction false} NewRowsOnce(present: set<Key>, rows: seq<Entry>)
    requires Keys(rows) <= present
    ensures NewRows(present, rows) == []
  {
    if rows != [] {
      assert Last(rows) in rows;
      assert forall e :: e in Init(rows) ==> e in rows;
      NewRowsOnce(present, Init(rows));
    }
  }

  /** record_new applied twice lands nothing the second time. */
  lemma {:induction false} NewRowsTwice(present: set<Key>, rows: seq<Entry>)
    ensures NewRows(present + Keys(NewRows(present, rows)), rows) == []
  {
    NewRowsLand(present, rows);
    NewRowsOnce(present + Keys(NewRows(present, rows)), rows);
  }

  // ---- file names

  predicate Alphanumeric(c: char) {
    'a' <= c <= 'z' || 'A' <= c <= 'Z' || '0' <= c <= '9'
  }

  /** A run id that is a safe file name: nothing of it is a path. */
  predicate SafeName(id: RunKey) {
    && id.TextId?
    && 1 <= |id.text| <= 201
    && Alphanumeric(id.text[0])
    && forall c :: c in id.text ==> Alphanumeric(c) || c in "._-"
  }

  lemma SafeNamesAreNoPaths(id: RunKey)
    requires SafeName(id)
    ensures '/' !in id.text && '\\' !in id.text && id.text[0] != '.' && 1 <= |id.text| <= 201
  {
  }

  datatype RunFile = RunFile(id: RunKey, entries: seq<Entry>)

  lemma KeysGrow(before: seq<Entry>, after: seq<Entry>, e: Entry)
    requires forall x :: x in after <==> x in before || x == e
    ensures Keys(after) == Keys(before) + {KeyOf(e)}
  {
  }

  lemma KeysSnoc(rows: seq<Entry>, e: Entry)
    ensures Keys(rows + [e]) == Keys(rows) + {KeyOf(e)}
  {
    KeysGrow(rows, rows + [e], e);
  }

  lemma {:induction false} LandsIfAbsent(start: set<Key>, rows: seq<Entry>, i: nat, landed: seq<Entry>,
                                         present: set<Key>)
    requires i < |rows| && landed == NewRows(start, rows[..i]) && present == start + Keys(landed)
    ensures var key := KeyOf(rows[i]);
      if key in present then NewRows(start, rows[..i + 1]) == landed
      else NewRows(start, rows[..i + 1]) == landed + [rows[i]] && present + {key} == start + Keys(landed + [rows[i]])
  {
    NewRowsStep(start, rows, i);
    KeysSnoc(landed, rows[i]);
  }

  lemma {:induction false} TotalInserts(a: seq<Entry>, more: seq<Entry>, b: seq<Entry>, month: nat)
    ensures Total(a + more + b, month) == Total(a + b, month) + Total(more, month)
  {
    TotalAppends(a + more, b, month);
    TotalAppends(a, more, month);
    TotalAppends(a, b, month);
  }

  function Flatten(files: seq<RunFile>): seq<Entry> {
    if files == [] then [] else Flatten(Init(files)) + Last(files).entries
  }

  lemma {:induction false} FlattenTotal(files: seq<RunFile>, k: nat, e: Entry, month: nat)
    requires k < |files|
    ensures Total(Flatten(files[k := RunFile(files[k].id, files[k].entries + [e])]), month)
         == Total(Flatten(files), month) + if Counts(e, month) then e.cost else 0
  {
    var files' := files[k := RunFile(files[k].id, files[k].entries + [e])];
    TotalAppends(Flatten(Init(files)), Last(files).entries, month);
    TotalAppends(Flatten(Init(files')), Last(files').entries, month);
    if k == |files| - 1 {
      assert Init(files') == Init(files);
      TotalAppends(Last(files).entries, [e], month);
      assert Init([e]) == [] && Total([e], month) == if Counts(e, month) then e.cost else 0;
    } else {
      assert Init(files') == Init(files)[k := RunFile(files[k].id, files[k].entries + [e])];
      FlattenTotal(Init(files), k, e, month);
    }
  }

  lemma {:induction false} FlattenHolds(files: seq<RunFile>)
    ensures forall e :: e in Flatten(files) <==> exists f :: f in files && e in f.entries
  {
    if files != [] {
      FlattenHolds(Init(files));
      assert files == Init(files) + [Last(files)];
      forall e
        ensures e in Flatten(files) <==> exists f :: f in files && e in f.entries
      {
        if e in Flatten(Init(files)) {
          var f :| f in Init(files) && e in f.entries;
          assert f in files;
        } else if e in Last(files).entries {
          assert Last(files) in files;
        }
      }
    }
  }

  /** No identity is recorded twice, in the aggregate or any run file; each run
      file holds rows of its own run. */
  ghost predicate Sound(aggregate: seq<Entry>, files: seq<RunFile>) {
    && DistinctKeys(aggregate)
    && (forall i :: 0 <= i < |files| ==>
          DistinctKeys(files[i].entries) && forall e :: e in files[i].entries ==> e.run == files[i].id)
    && (forall i, j :: 0 <= i < j < |files| ==> files[i].id != files[j].id)
    && (forall e, i, f :: e in aggregate && 0 <= i < |files| && f in files[i].entries ==> KeyOf(e) != KeyOf(f))
  }

  lemma {:induction false} FilesAreDistinct(files: seq<RunFile>)
    requires Sound([], files)
    ensures DistinctKeys(Flatten(files))
  {
    if files != [] {
      FilesAreDistinct(Init(files));
      FlattenHolds(Init(files));
      forall e, f | e in Flatten(Init(files)) && f in Last(files).entries
        ensures KeyOf(e) != KeyOf(f)
      {
        var i :| 0 <= i < |Init(files)| && e in Init(files)[i].entries;
        assert e.run == files[i].id && f.run == Last(files).id;
      }
      DistinctAppends(Flatten(Init(files)), Last(files).entries);
    }
  }

  lemma DistinctAppends(a: seq<Entry>, b: seq<Entry>)
    requires DistinctKeys(a) && DistinctKeys(b)
    requires forall e, f :: e in a && f in b ==> KeyOf(e) != KeyOf(f)
    ensures DistinctKeys(a + b)
  {
    forall i, j | 0 <= i < j < |a + b|
      ensures KeyOf((a + b)[i]) != KeyOf((a + b)[j])
    {
      if i < |a| <= j { assert a[i] in a && b[j - |a|] in b; }
    }
  }

  /** So a reader of the whole ledger meets no identity twice. */
  lemma {:induction false} SoundIsDistinct(aggregate: seq<Entry>, files: seq<RunFile>)
    requires Sound(aggregate, files)
    ensures DistinctKeys(aggregate + Flatten(files))
  {
    FilesAreDistinct(files);
    FlattenHolds(files);
    forall e, f | e in aggregate && f in Flatten(files)
      ensures KeyOf(e) != KeyOf(f)
    {
      var i :| 0 <= i < |files| && f in files[i].entries;
    }
    DistinctAppends(aggregate, Flatten(files));
  }

  /** File `k` with one more row. */
  function Filed(files: seq<RunFile>, k: nat, e: Entry): seq<RunFile>
    requires k < |files|
  {
    files[k := RunFile(files[k].id, files[k].entries + [e])]
  }

  lemma {:induction false} FiledRows(files: seq<RunFile>, k: nat, e: Entry)
    requires k < |files|
    ensures forall x :: x in Flatten(Filed(files, k, e)) <==> x in Flatten(files) || x == e
  {
    var files' := Filed(files, k, e);
    FlattenHolds(files);
    FlattenHolds(files');
    forall x
      ensures x in Flatten(files') <==> x in Flatten(files) || x == e
    {
      if x in Flatten(files) {
        var i :| 0 <= i < |files| && x in files[i].entries;
        assert files'[i] in files' && x in files'[i].entries;
      }
      if x in Flatten(files') {
        var i :| 0 <= i < |files'| && x in files'[i].entries;
        assert files[i] in files;
      }
      if x == e { assert files'[k] in files'; }
    }
  }

  lemma {:induction false} FiledIsSound(aggregate: seq<Entry>, files: seq<RunFile>, k: nat, e: Entry)
    requires Sound(aggregate, files) && k < |files| && files[k].id == e.run
    requires KeyOf(e) !in Keys(aggregate + Flatten(files))
    ensures Sound(aggregate, Filed(files, k, e))
  {
    FlattenHolds(files);
    forall x | x in aggregate || x in files[k].entries
      ensures KeyOf(x) != KeyOf(e)
    {
      assert files[k] in files && x in aggregate + Flatten(files);
    }
  }

  // ---- the ledger

  class Ledger {
    var aggregate: seq<Entry>
    var files: seq<RunFile>

    constructor ()
      ensures Valid() && aggregate == [] && files == []
    {
      aggregate, files := [], [];
    }

    /** Every row the ledger holds, as a reader sees it. */
    function Entries(): seq<Entry>
      reads this
    {
      aggregate + Flatten(files)
    }

    ghost predicate Valid()
      reads this
    {
      Sound(aggregate, files)
    }

    /** Whether this identity is recorded, by reading every row. */
    method Recorded(key: Key) returns (found: bool)
      ensures found <==> key in Keys(Entries())
      ensures found <==> exists e :: e in Entries() && e.wo == key.wo && e.run == key.run
    {
      var entries := Entries();
      var i := 0;
      found := false;
      while i < |entries|
        invariant 0 <= i <= |entries|
        invariant found <==> exists j :: 0 <= j < i && KeyOf(entries[j]) == key
      {
        if KeyOf(entries[i]) == key { found := true; }
        i := i + 1;
      }
      if found {
        var j :| 0 <= j < |entries| && KeyOf(entries[j]) == key;
        assert entries[j] in entries;
      }
    }

    lemma KeysOfFiles()
      ensures forall e :: e in aggregate ==> KeyOf(e) in Keys(Entries())
      ensures forall i, e :: 0 <= i < |files| && e in files[i].entries ==> KeyOf(e) in Keys(Entries())
    {
      FlattenHolds(files);
      forall i, e | 0 <= i < |files| && e in files[i].entries
        ensures KeyOf(e) in Keys(Entries())
      {
        assert files[i] in files && e in Flatten(files) && e in Entries();
      }
      forall e | e in aggregate
        ensures KeyOf(e) in Keys(Entries())
      {
        assert e in Entries();
      }
    }

    /** The raw write to the aggregate of a row not yet recorded. */
    method Append(e: Entry)
      requires Valid() && KeyOf(e) !in Keys(Entries())
      modifies this`aggregate
      ensures Valid() && aggregate == old(aggregate) + [e]
      ensures Keys(Entries()) == old(Keys(Entries())) + {KeyOf(e)}
      ensures forall month: nat ::
        Total(Entries(), month) == old(Total(Entries(), month))
          + if e.outcome == Dispatched && e.month == Some(month) then e.cost else 0
    {
      KeysOfFiles();
      ghost var before := Entries();
      aggregate := aggregate + [e];
      KeysGrow(before, Entries(), e);
      forall month: nat
        ensures Total(Entries(), month) == Total(before, month) + if Counts(e, month) then e.cost else 0
      {
        TotalAppends(aggregate, Flatten(files), month);
        TotalAppends(old(aggregate), Flatten(files), month);
        TotalAppends(old(aggregate), [e], month);
        assert Init([e]) == [];
      }
    }

    /** record: one row, refused when ill-shaped or already recorded. */
    method Record(e: Entry) returns (landed: bool)
      requires Valid()
      modifies this`aggregate
      ensures Valid()
      ensures landed <==> (e.outcome == OwnerSession ==> e.cost == 0) && KeyOf(e) !in old(Keys(Entries()))
      ensures aggregate == if landed then old(aggregate) + [e] else old(aggregate)
      ensures forall month: nat ::
        Total(Entries(), month) == old(Total(Entries(), month))
          + if landed && e.outcome == Dispatched && e.month == Some(month) then e.cost else 0
    {
      landed := false;
      if ShapeOk(e) {
        var found := Recorded(KeyOf(e));
        if !found {
          Append(e);
          landed := true;
        }
      }
    }

    /** record_isolated: one row in its own run's file. */
    method RecordIsolated(e: Entry) returns (landed: bool)
      requires Valid()
      modifies this`files
      ensures Valid()
      ensures landed <==>
        (e.outcome == OwnerSession ==> e.cost == 0) && SafeName(e.run) && KeyOf(e) !in old(Keys(Entries()))
      ensures !landed ==> files == old(files)
      ensures landed ==> Keys(Entries()) == old(Keys(Entries())) + {KeyOf(e)}
      ensures forall i :: 0 <= i < |old(files)| ==>
        i < |files| && files[i].id == old(files)[i].id && old(files)[i].entries <= files[i].entries
      ensures forall month: nat ::
        Total(Entries(), month) == old(Total(Entries(), month))
          + if landed && e.outcome == Dispatched && e.month == Some(month) then e.cost else 0
    {
      landed := false;
      if !ShapeOk(e) || !SafeName(e.run) { return; }
      var found := Recorded(KeyOf(e));
      if found { return; }
      var k := 0;
      while k < |files| && files[k].id != e.run
        invariant 0 <= k <= |files| && forall i :: 0 <= i < k ==> files[i].id != e.run
      {
        k := k + 1;
      }
      var ready := if k == |files| then files + [RunFile(e.run, [])] else files;
      OpensEmpty(files, e.run);
      if k == |files| { OpensSound(aggregate, files, e.run); }
      FiledAdds(aggregate, ready, k, e);
      files := Filed(ready, k, e);
      landed := true;
    }

    /** Each row in turn, unless its key is recorded by then. */
    method LandNew(rows: seq<Entry>, start: set<Key>) returns (landed: seq<Entry>)
      requires Valid() && start == Keys(Entries())
      modifies this`aggregate
      ensures Valid() && aggregate == old(aggregate) + landed
      ensures landed == NewRows(start, rows)
      ensures Keys(Entries()) == start + Keys(landed)
    {
      landed := [];
      var present := start;
      for i := 0 to |rows|
        invariant Valid() && aggregate == old(aggregate) + landed
        invariant landed == NewRows(start, rows[..i])
        invariant present == Keys(Entries()) && present == start + Keys(landed)
      {
        LandsIfAbsent(start, rows, i, landed, present);
        if KeyOf(rows[i]) !in present {
          Append(rows[i]);
          present := present + {KeyOf(rows[i])};
          landed := landed + [rows[i]];
        }
      }
      assert rows[..|rows|] == rows;
    }

    /** record_new: many rows, each landing at most once; an ill-shaped row
        refuses the whole batch. */
    method RecordNew(rows: seq<Entry>) returns (landed: seq<Entry>)
      requires Valid()
      modifies this`aggregate
      ensures Valid() && aggregate == old(aggregate) + landed
      ensures landed == if exists e :: e in rows && e.outcome == OwnerSession && e.cost != 0 then []
                        else NewRows(old(Keys(Entries())), rows)
      ensures Keys(Entries()) == old(Keys(Entries())) + Keys(landed)
      ensures forall month :: Total(Entries(), month) == old(Total(Entries(), month)) + Total(landed, month)
    {
      landed := [];
      var ok := forall e :: e in rows ==> ShapeOk(e);
      if !ok { return; }
      landed := LandNew(rows, set e | e in Entries() :: KeyOf(e));
      forall month: nat
        ensures Total(Entries(), month) == old(Total(Entries(), month)) + Total(landed, month)
      {
        TotalInserts(old(aggregate), landed, Flatten(files), month);
      }
    }
  }

  lemma {:induction false} OpensSound(aggregate: seq<Entry>, files: seq<RunFile>, id: RunKey)
    requires Sound(aggregate, files) && forall i :: 0 <= i < |files| ==> files[i].id != id
    ensures Sound(aggregate, files + [RunFile(id, [])])
  {
    var more := files + [RunFile(id, [])];
    assert forall i :: 0 <= i < |files| ==> more[i] == files[i];
  }

  /** One more row in its run's file: one key more, and its cost in its month. */
  lemma {:induction false} FiledAdds(aggregate: seq<Entry>, files: seq<RunFile>, k: nat, e: Entry)
    requires Sound(aggregate, files) && k < |files| && files[k].id == e.run
    requires KeyOf(e) !in Keys(aggregate + Flatten(files))
    ensures var before, after := aggregate + Flatten(files), aggregate + Flatten(Filed(files, k, e));
      && Sound(aggregate, Filed(files, k, e))
      && Keys(after) == Keys(before) + {KeyOf(e)}
      && forall month :: Total(after, month) == Total(before, month) + if Counts(e, month) then e.cost else 0
  {
    FiledIsSound(aggregate, files, k, e);
    FiledRows(files, k, e);
    var before, after := aggregate + Flatten(files), aggregate + Flatten(Filed(files, k, e));
    KeysGrow(before, after, e);
    forall month: nat
      ensures Total(after, month) == Total(before, month) + if Counts(e, month) then e.cost else 0
    {
      FlattenTotal(files, k, e, month);
      TotalAppends(aggregate, Flatten(Filed(files, k, e)), month);
      TotalAppends(aggregate, Flatten(files), month);
    }
  }

  /** A run file opened empty changes no row. */
  lemma {:induction false} OpensEmpty(files: seq<RunFile>, id: RunKey)
    ensures Flatten(files + [RunFile(id, [])]) == Flatten(files)
  {
    var more := files + [RunFile(id, [])];
    assert Init(more) == files && Last(more).entries == [];
  }
}
