/** The merge turn's reservation check (tools/factory/conductor_merge.py,
    confirm_reservations): every reserved number the item used must still be free
    on main; a taken one moves above everything on main and every block ever
    reserved in the batch, and the lines the item added follow. */
module Renumber {
  import opened Rows
  import opened View
  import opened Plan
  import opened Citations

  const NO_MOVES: Moves := PerKind([], [], [])

  // ---- what is taken

  /** Every value any reserve row of the batch ever named. */
  function AllReserved(rows: Ledger, kind: Kind): set<nat> {
    if rows == [] then {}
    else
      match Last(rows)
      case ReserveRow(r) =>
        if r.what == kind then AllReserved(Init(rows), kind) + (set v | v in r.values)
        else AllReserved(Init(rows), kind)
      case _ => AllReserved(Init(rows), kind)
  }

  /** The largest number, zero for none. */
  ghost function Top(taken: set<nat>): (top: nat)
    ensures forall n :: n in taken ==> n <= top
    ensures if taken == {} then top == 0 else top in taken
  {
    if taken == {} then 0
    else
      var n :| n in taken;
      var rest := Top(taken - {n});
      assert forall m :: m in taken ==> m == n || m in taken - {n};
      if n > rest then n else rest
  }

  method MaxOf(taken: set<nat>) returns (top: nat)
    ensures top == Top(taken)
  {
    var left := taken;
    top := 0;
    while left != {}
      invariant left <= taken
      invariant forall m :: m in taken ==> m in left || m <= top
      invariant top == 0 || top in taken
      decreases left
    {
      var n :| n in left;
      if n > top { top := n; }
      left := left - {n};
    }
    if taken != {} {
      assert Top(taken) in taken;
    }
  }

  ghost function Taken(rows: Ledger, onMain: PerKind<set<nat>>, kind: Kind): set<nat> {
    onMain.Get(kind) + AllReserved(rows, kind)
  }

  // ---- allocation

  function Pairs(numbers: seq<nat>, top: nat): seq<Pair> {
    seq(|numbers|, i requires 0 <= i < |numbers| => Pair(numbers[i], top + 1 + i))
  }

  /** A kind's collided numbers leave the four-digit grammar. */
  ghost predicate Overflows(rows: Ledger, onMain: PerKind<set<nat>>, collided: PerKind<seq<nat>>, kind: Kind) {
    collided.Get(kind) != [] && Top(Taken(rows, onMain, kind)) + |collided.Get(kind)| > 9999
  }

  ghost function PairsOf(rows: Ledger, onMain: PerKind<set<nat>>, collided: PerKind<seq<nat>>, kind: Kind): seq<Pair> {
    Pairs(collided.Get(kind), Top(Taken(rows, onMain, kind)))
  }

  /** The moves, or None when a number would leave the grammar and the turn stalls. */
  ghost function Allocated(rows: Ledger, onMain: PerKind<set<nat>>, collided: PerKind<seq<nat>>): Option<Moves> {
    if exists kind :: Overflows(rows, onMain, collided, kind) then None
    else Some(PerKind(PairsOf(rows, onMain, collided, Prd), PairsOf(rows, onMain, collided, Adr),
                      PairsOf(rows, onMain, collided, Wo)))
  }

  /** One kind of _allocate: numbers counted up from the top, or a stall. */
  method AllocateKind(taken: set<nat>, numbers: seq<nat>) returns (pairs: Option<seq<Pair>>)
    ensures pairs == if numbers != [] && Top(taken) + |numbers| > 9999 then None else Some(Pairs(numbers, Top(taken)))
  {
    var top := MaxOf(taken);
    var found := [];
    for i := 0 to |numbers|
      invariant top == Top(taken) + i && found == Pairs(numbers[..i], Top(taken))
      invariant i > 0 ==> top <= 9999
    {
      top := top + 1;
      if top > 9999 { return None; }
      found := found + [Pair(numbers[i], top)];
    }
    assert numbers[..|numbers|] == numbers;
    pairs := Some(found);
  }

  /** _allocate. */
  method Allocate(rows: Ledger, onMain: PerKind<set<nat>>, collided: PerKind<seq<nat>>) returns (moves: Option<Moves>)
    ensures moves == Allocated(rows, onMain, collided)
  {
    var prd := AllocateKind(onMain.prd + AllReserved(rows, Prd), collided.prd);
    if prd.None? {
      assert Overflows(rows, onMain, collided, Prd);
      return None;
    }
    var adr := AllocateKind(onMain.adr + AllReserved(rows, Adr), collided.adr);
    if adr.None? {
      assert Overflows(rows, onMain, collided, Adr);
      return None;
    }
    var wo := AllocateKind(onMain.wo + AllReserved(rows, Wo), collided.wo);
    if wo.None? {
      assert Overflows(rows, onMain, collided, Wo);
      return None;
    }
    forall kind: Kind
      ensures !Overflows(rows, onMain, collided, kind)
    {
      match kind
      case Prd =>
      case Adr =>
      case Wo =>
    }
    moves := Some(PerKind(prd.value, adr.value, wo.value));
  }

  // ---- the branch

  /** A changed file: main's lines and the branch's. */
  datatype File = File(main: seq<Line>, head: seq<Line>)

  /** The files an item changed, and the numbers of the ADR files it added. */
  datatype Branch = Branch(files: seq<File>, newAdrs: set<nat>)

  ghost predicate CitedIn(file: File, i: nat, kind: Kind, number: nat)
    requires i < |file.head|
  {
    Added(file.main, file.head, i) && exists p :: p in file.head[i] && Cites(p, kind, number)
  }

  ghost predicate CitedAt(branch: Branch, f: nat, i: nat, kind: Kind, number: nat) {
    f < |branch.files| && i < |branch.files[f].head| && CitedIn(branch.files[f], i, kind, number)
  }

  /** The item used the number: cited it in a line it added, or named an ADR file by it. */
  ghost predicate Uses(branch: Branch, kind: Kind, number: nat) {
    (exists f, i :: CitedAt(branch, f, i, kind, number)) || (kind == Adr && number in branch.newAdrs)
  }

  predicate Ascending(s: seq<nat>) {
    forall i, j :: 0 <= i < j < |s| ==> s[i] < s[j]
  }

  ghost function Sorted(s: set<nat>): (sorted: seq<nat>)
    ensures forall n :: n in sorted <==> n in s
    ensures Ascending(sorted)
    ensures |sorted| == |s|
    decreases |s|
  {
    if s == {} then []
    else
      var top := Top(s);
      Sorted(s - {top}) + [top]
  }

  /** The item's reserved numbers that it used and that main holds by now. */
  ghost function Collided(rows: Ledger, item: Item, onMain: PerKind<set<nat>>, branch: Branch, kind: Kind): set<nat> {
    UsedOf(Live(rows, item, kind), onMain.Get(kind), branch, kind)
  }

  ghost function UsedOf(held: set<nat>, onMain: set<nat>, branch: Branch, kind: Kind): set<nat> {
    set n | n in held && Uses(branch, kind, n) && n in onMain
  }

  function Live(rows: Ledger, item: Item, kind: Kind): set<nat> {
    LiveBlock(ReservesOf(rows, item), kind)
  }

  /** confirm_reservations: the moves it makes, none when nothing collided. */
  ghost function Confirmed(rows: Ledger, item: Item, onMain: PerKind<set<nat>>, branch: Branch): Option<Moves> {
    Allocated(rows, onMain, CollidedKinds(rows, item, onMain, branch))
  }

  ghost function CollidedKinds(rows: Ledger, item: Item, onMain: PerKind<set<nat>>, branch: Branch): PerKind<seq<nat>> {
    PerKind(Sorted(Collided(rows, item, onMain, branch, Prd)),
            Sorted(Collided(rows, item, onMain, branch, Adr)),
            Sorted(Collided(rows, item, onMain, branch, Wo)))
  }

  function Olds(pairs: seq<Pair>): seq<nat> {
    seq(|pairs|, i requires 0 <= i < |pairs| => pairs[i].from)
  }

  function News(pairs: seq<Pair>): seq<nat> {
    seq(|pairs|, i requires 0 <= i < |pairs| => pairs[i].to)
  }

  /** The reserve row of one kind's moves, none without any. */
  function KindRow(item: Item, kind: Kind, pairs: seq<Pair>): seq<Row> {
    if pairs == [] then [] else [ReserveRow(Reservation(item, kind, News(pairs), Olds(pairs)))]
  }

  function RenumberRows(item: Item, moves: Moves): seq<Row> {
    KindRow(item, Prd, moves.prd) + KindRow(item, Adr, moves.adr) + KindRow(item, Wo, moves.wo)
  }

  // ---- what moves are made of

  /** Distinct numbers the item holds, moved to distinct ones above everything
      on main and everything ever reserved. */
  ghost predicate MovesFreshly(rows: Ledger, item: Item, onMain: set<nat>, kind: Kind, pairs: seq<Pair>) {
    && (forall i, j :: 0 <= i < j < |pairs| ==> pairs[i].from != pairs[j].from && pairs[i].to != pairs[j].to)
    && (forall pair :: pair in pairs ==>
          && pair.from in Live(rows, item, kind) && pair.from in onMain
          && (forall n :: n in AllReserved(rows, kind) ==> n < pair.to)
          && (forall n :: n in onMain ==> n < pair.to))
  }

  lemma PairsAreAbove(numbers: seq<nat>, top: nat)
    requires Ascending(numbers)
    ensures var pairs := Pairs(numbers, top);
      && (forall i, j :: 0 <= i < j < |pairs| ==> pairs[i].from != pairs[j].from && pairs[i].to != pairs[j].to)
      && (forall pair :: pair in pairs ==> pair.from in numbers && top < pair.to)
  {
  }

  lemma PairsMoveFreshly(rows: Ledger, item: Item, onMain: PerKind<set<nat>>, branch: Branch, kind: Kind)
    ensures MovesFreshly(rows, item, onMain.Get(kind), kind,
                         Pairs(Sorted(Collided(rows, item, onMain, branch, kind)), Top(Taken(rows, onMain, kind))))
  {
    PairsAreAbove(Sorted(Collided(rows, item, onMain, branch, kind)), Top(Taken(rows, onMain, kind)));
  }

  /** Every move of a turn is fresh: above all of main and all the batch ever reserved. */
  lemma TurnsMoveFreshly(rows: Ledger, item: Item, onMain: PerKind<set<nat>>, branch: Branch, kind: Kind)
    requires Confirmed(rows, item, onMain, branch).Some?
    ensures MovesFreshly(rows, item, onMain.Get(kind), kind, Confirmed(rows, item, onMain, branch).value.Get(kind))
  {
    PairsMoveFreshly(rows, item, onMain, branch, kind);
  }

  lemma FreshMovesAreClean(rows: Ledger, item: Item, onMain: set<nat>, kind: Kind, pairs: seq<Pair>)
    requires MovesFreshly(rows, item, onMain, kind, pairs)
    ensures Clean(pairs)
  {
  }

  // ---- one reserve row

  function Elements(s: seq<nat>): set<nat> {
    set n | n in s
  }

  lemma ReservedSnoc(reserves: seq<Reservation>, r: Reservation, kind: Kind)
    ensures ReservedValues(reserves + [r], kind)
         == ReservedValues(reserves, kind) + (if r.what == kind then Elements(r.values) else {})
    ensures MovedValues(reserves + [r], kind)
         == MovedValues(reserves, kind) + (if r.what == kind then Elements(r.renumberedFrom) else {})
  {
    var all := reserves + [r];
    assert r in all && forall one :: one in all <==> one in reserves || one == r;
  }

  lemma {:induction false} ReservedIsAll(rows: Ledger, item: Item, kind: Kind)
    ensures ReservedValues(ReservesOf(rows, item), kind) <= AllReserved(rows, kind)
  {
    if rows != [] {
      ReservedIsAll(Init(rows), item, kind);
      if Last(rows).ReserveRow? {
        ReservedSnoc(ReservesOf(Init(rows), item), Last(rows).reservation, kind);
      }
    }
  }

  /** Every moved number was reserved, and no number was ever reserved for two items. */
  ghost predicate Partitioned(rows: Ledger) {
    && (forall item: Item, kind ::
          MovedValues(ReservesOf(rows, item), kind) <= ReservedValues(ReservesOf(rows, item), kind))
    && (forall a: Item, b: Item, kind :: a != b ==>
          ReservedValues(ReservesOf(rows, a), kind) !! ReservedValues(ReservesOf(rows, b), kind))
  }

  /** The row gives up numbers its item holds, for numbers never reserved before. */
  ghost predicate Exchanges(rows: Ledger, r: Reservation) {
    && Elements(r.renumberedFrom) <= Live(rows, r.item, r.what)
    && Elements(r.values) !! AllReserved(rows, r.what)
  }

  lemma {:induction false} ReserveRowReads(rows: Ledger, r: Reservation, item: Item, kind: Kind)
    ensures var after := rows + [ReserveRow(r)];
      && ReservedValues(ReservesOf(after, item), kind)
         == ReservedValues(ReservesOf(rows, item), kind)
            + (if r.item == item && r.what == kind then Elements(r.values) else {})
      && MovedValues(ReservesOf(after, item), kind)
         == MovedValues(ReservesOf(rows, item), kind)
            + (if r.item == item && r.what == kind then Elements(r.renumberedFrom) else {})
      && AllReserved(after, kind) == AllReserved(rows, kind) + (if r.what == kind then Elements(r.values) else {})
  {
    InitSnoc(rows, ReserveRow(r));
    ReservedSnoc(ReservesOf(rows, item), r, kind);
  }

  lemma ExchangeKeeps(rows: Ledger, r: Reservation)
    requires Partitioned(rows) && Exchanges(rows, r)
    ensures Partitioned(rows + [ReserveRow(r)])
  {
    var after := rows + [ReserveRow(r)];
    forall item: Item, kind
      ensures MovedValues(ReservesOf(after, item), kind) <= ReservedValues(ReservesOf(after, item), kind)
    {
      ReserveRowReads(rows, r, item, kind);
    }
    forall a: Item, b: Item, kind | a != b
      ensures ReservedValues(ReservesOf(after, a), kind) !! ReservedValues(ReservesOf(after, b), kind)
    {
      ReserveRowReads(rows, r, a, kind);
      ReserveRowReads(rows, r, b, kind);
      ReservedIsAll(rows, a, kind);
      ReservedIsAll(rows, b, kind);
    }
  }

  /** `after` has some of the item's numbers of a kind gone and new ones come, and nothing else. */
  ghost predicate KindChanged(rows: Ledger, after: Ledger, item: Item, kind: Kind, gone: set<nat>, come: set<nat>) {
    && Partitioned(after)
    && Live(after, item, kind) == Live(rows, item, kind) - gone + come
    && (forall other: Item, k :: other != item || k != kind ==> Live(after, other, k) == Live(rows, other, k))
    && (forall k :: AllReserved(after, k) == AllReserved(rows, k) + if k == kind then come else {})
  }

  lemma ExchangeChanges(rows: Ledger, r: Reservation)
    requires Partitioned(rows) && Exchanges(rows, r)
    ensures KindChanged(rows, rows + [ReserveRow(r)], r.item, r.what, Elements(r.renumberedFrom), Elements(r.values))
  {
    var after := rows + [ReserveRow(r)];
    ExchangeKeeps(rows, r);
    ReserveRowReads(rows, r, r.item, r.what);
    ReservedIsAll(rows, r.item, r.what);
    forall other: Item, k | other != r.item || k != r.what
      ensures Live(after, other, k) == Live(rows, other, k)
    {
      ReserveRowReads(rows, r, other, k);
    }
    forall k
      ensures AllReserved(after, k) == AllReserved(rows, k) + if k == r.what then Elements(r.values) else {}
    {
      ReserveRowReads(rows, r, r.item, k);
    }
  }

  /** All three kinds changed, each its own way, and no other item. */
  ghost predicate Changed(rows: Ledger, after: Ledger, item: Item, gone: PerKind<set<nat>>, come: PerKind<set<nat>>) {
    && Partitioned(after)
    && (forall kind :: Live(after, item, kind) == Live(rows, item, kind) - gone.Get(kind) + come.Get(kind))
    && (forall other: Item, kind :: other != item ==> Live(after, other, kind) == Live(rows, other, kind))
    && (forall kind :: AllReserved(after, kind) == AllReserved(rows, kind) + come.Get(kind))
  }

  lemma KindsChangeTheItem(rows: Ledger, first: Ledger, second: Ledger, third: Ledger, item: Item,
                           gone: PerKind<set<nat>>, come: PerKind<set<nat>>)
    requires KindChanged(rows, first, item, Prd, gone.prd, come.prd)
    requires KindChanged(first, second, item, Adr, gone.adr, come.adr)
    requires KindChanged(second, third, item, Wo, gone.wo, come.wo)
    ensures Changed(rows, third, item, gone, come)
  {
    forall kind: Kind
      ensures Live(third, item, kind) == Live(rows, item, kind) - gone.Get(kind) + come.Get(kind)
    {
      match kind
      case Prd =>
        assert Live(third, item, Prd) == Live(second, item, Prd) == Live(first, item, Prd);
      case Adr =>
        assert Live(third, item, Adr) == Live(second, item, Adr) && Live(first, item, Adr) == Live(rows, item, Adr);
      case Wo =>
        assert Live(second, item, Wo) == Live(first, item, Wo) == Live(rows, item, Wo);
    }
    forall other: Item, kind: Kind | other != item
      ensures Live(third, other, kind) == Live(rows, other, kind)
    {
      assert Live(third, other, kind) == Live(second, other, kind);
      assert Live(second, other, kind) == Live(first, other, kind);
    }
    forall kind: Kind
      ensures AllReserved(third, kind) == AllReserved(rows, kind) + come.Get(kind)
    {
      match kind
      case Prd => assert AllReserved(third, Prd) == AllReserved(second, Prd) + {} == AllReserved(first, Prd) + {} + {};
      case Adr =>
        assert AllReserved(third, Adr) == AllReserved(second, Adr) + {};
        assert AllReserved(first, Adr) == AllReserved(rows, Adr) + {};
      case Wo => assert AllReserved(second, Wo) == AllReserved(first, Wo) + {} == AllReserved(rows, Wo) + {} + {};
    }
  }

  // ---- a turn's rows

  lemma {:induction false} KindRowChanges(rows: Ledger, item: Item, onMain: set<nat>, kind: Kind, pairs: seq<Pair>)
    requires Partitioned(rows) && MovesFreshly(rows, item, onMain, kind, pairs)
    ensures Elements(Olds(pairs)) <= Live(rows, item, kind) && Elements(News(pairs)) !! AllReserved(rows, kind)
    ensures KindChanged(rows, rows + KindRow(item, kind, pairs), item, kind,
                        Elements(Olds(pairs)), Elements(News(pairs)))
  {
    forall n | n in Elements(Olds(pairs))
      ensures n in Live(rows, item, kind)
    {
      var i :| 0 <= i < |pairs| && Olds(pairs)[i] == n;
      assert pairs[i] in pairs;
    }
    forall n | n in Elements(News(pairs))
      ensures n !in AllReserved(rows, kind)
    {
      var i :| 0 <= i < |pairs| && News(pairs)[i] == n;
      assert pairs[i] in pairs;
    }
    if pairs == [] {
      assert rows + KindRow(item, kind, pairs) == rows;
      assert Elements(Olds(pairs)) == {} && Elements(News(pairs)) == {};
    } else {
      ExchangeChanges(rows, Reservation(item, kind, News(pairs), Olds(pairs)));
    }
  }

  lemma OtherKindStillFresh(rows: Ledger, after: Ledger, item: Item, onMain: set<nat>, turned: Kind,
                            gone: set<nat>, come: set<nat>, kind: Kind, pairs: seq<Pair>)
    requires KindChanged(rows, after, item, turned, gone, come) && turned != kind
    requires MovesFreshly(rows, item, onMain, kind, pairs)
    ensures MovesFreshly(after, item, onMain, kind, pairs)
  {
    assert Live(after, item, kind) == Live(rows, item, kind);
    assert AllReserved(after, kind) == AllReserved(rows, kind) + {};
  }

  /** One kind's row, and the two kinds to come still move freshly after it. */
  lemma KindStep(rows: Ledger, item: Item, onMain: PerKind<set<nat>>, moves: Moves, kind: Kind)
    requires Partitioned(rows) && MovesFreshly(rows, item, onMain.Get(kind), kind, moves.Get(kind))
    ensures var after := rows + KindRow(item, kind, moves.Get(kind));
      && KindChanged(rows, after, item, kind, Gone(moves).Get(kind), Come(moves).Get(kind))
      && (forall k :: k != kind && MovesFreshly(rows, item, onMain.Get(k), k, moves.Get(k)) ==>
            MovesFreshly(after, item, onMain.Get(k), k, moves.Get(k)))
  {
    var after := rows + KindRow(item, kind, moves.Get(kind));
    KindRowChanges(rows, item, onMain.Get(kind), kind, moves.Get(kind));
    forall k | k != kind && MovesFreshly(rows, item, onMain.Get(k), k, moves.Get(k))
      ensures MovesFreshly(after, item, onMain.Get(k), k, moves.Get(k))
    {
      OtherKindStillFresh(rows, after, item, onMain.Get(k), kind, Gone(moves).Get(kind), Come(moves).Get(kind),
                          k, moves.Get(k));
    }
  }

  function Gone(moves: Moves): PerKind<set<nat>> {
    PerKind(Elements(Olds(moves.prd)), Elements(Olds(moves.adr)), Elements(Olds(moves.wo)))
  }

  function Come(moves: Moves): PerKind<set<nat>> {
    PerKind(Elements(News(moves.prd)), Elements(News(moves.adr)), Elements(News(moves.wo)))
  }

  ghost predicate AllFresh(rows: Ledger, item: Item, onMain: PerKind<set<nat>>, moves: Moves) {
    forall kind :: MovesFreshly(rows, item, onMain.Get(kind), kind, moves.Get(kind))
  }

  /** A turn's rows leave every number with one item at most, put the new numbers in
      the moved ones' place kind by kind, and leave every other block as it was. */
  lemma TurnChanges(rows: Ledger, item: Item, onMain: PerKind<set<nat>>, moves: Moves)
    requires Partitioned(rows) && AllFresh(rows, item, onMain, moves)
    ensures Changed(rows, rows + RenumberRows(item, moves), item, Gone(moves), Come(moves))
  {
    var a, b := KindRow(item, Prd, moves.Get(Prd)), KindRow(item, Adr, moves.Get(Adr));
    var c := KindRow(item, Wo, moves.Get(Wo));
    assert rows + RenumberRows(item, moves) == ((rows + a) + b) + c;
    KindStep(rows, item, onMain, moves, Prd);
    KindStep(rows + a, item, onMain, moves, Adr);
    KindStep((rows + a) + b, item, onMain, moves, Wo);
    KindsChangeTheItem(rows, rows + a, (rows + a) + b, ((rows + a) + b) + c, item, Gone(moves), Come(moves));
  }

  lemma {:induction false} DistinctSize(s: seq<nat>)
    requires forall i, j :: 0 <= i < j < |s| ==> s[i] != s[j]
    ensures |Elements(s)| == |s|
  {
    if s != [] {
      DistinctSize(Init(s));
      assert s == Init(s) + [Last(s)];
      assert Elements(s) == Elements(Init(s)) + {Last(s)};
    }
  }

  lemma SwapKeepsCount(before: set<nat>, pairs: seq<Pair>)
    requires forall i, j :: 0 <= i < j < |pairs| ==> pairs[i].from != pairs[j].from && pairs[i].to != pairs[j].to
    requires Elements(Olds(pairs)) <= before && Elements(News(pairs)) !! before
    ensures |before - Elements(Olds(pairs)) + Elements(News(pairs))| == |before|
  {
    DistinctSize(Olds(pairs));
    DistinctSize(News(pairs));
    var kept := before - Elements(Olds(pairs));
    assert before == kept + Elements(Olds(pairs));
  }

  lemma {:induction false} FreshSwapKeepsCount(rows: Ledger, item: Item, onMain: set<nat>, kind: Kind, pairs: seq<Pair>)
    requires Partitioned(rows) && MovesFreshly(rows, item, onMain, kind, pairs)
    ensures var live := Live(rows, item, kind);
      |live - Elements(Olds(pairs)) + Elements(News(pairs))| == |live|
  {
    KindRowChanges(rows, item, onMain, kind, pairs);
    ReservedIsAll(rows, item, kind);
    SwapKeepsCount(Live(rows, item, kind), pairs);
  }

  /** No block grows or shrinks in a turn, of any item and any kind. */
  lemma TurnKeepsCounts(rows: Ledger, item: Item, onMain: PerKind<set<nat>>, moves: Moves, other: Item, kind: Kind)
    requires Partitioned(rows) && AllFresh(rows, item, onMain, moves)
    ensures |Live(rows + RenumberRows(item, moves), other, kind)| == |Live(rows, other, kind)|
  {
    TurnChanges(rows, item, onMain, moves);
    if other == item {
      assert MovesFreshly(rows, item, onMain.Get(kind), kind, moves.Get(kind));
      FreshSwapKeepsCount(rows, item, onMain.Get(kind), kind, moves.Get(kind));
    }
  }

  // ---- the opened batch

  function BlockRow(p: PlannedItem, kind: Kind): seq<Row> {
    if BlockSize(p.kind, kind) == 0 then [] else [ReserveRow(Reservation(p.item, kind, p.block.Get(kind), []))]
  }

  /** The reserve rows of one planned item. */
  function BlockRows(p: PlannedItem): seq<Row> {
    BlockRow(p, Prd) + BlockRow(p, Adr) + BlockRow(p, Wo)
  }

  /** open_batch: the plan row, then every item's reserve rows. */
  function OpenRows(entries: seq<Entry>, items: seq<PlannedItem>): Ledger {
    if items == [] then [PlanRow(entries)] else OpenRows(entries, Init(items)) + BlockRows(Last(items))
  }

  const NOTHING: PerKind<set<nat>> := PerKind({}, {}, {})

  function Held(p: PlannedItem): PerKind<set<nat>> {
    PerKind(Elements(p.block.prd), Elements(p.block.adr), Elements(p.block.wo))
  }

  /** The block's numbers of a kind are new to the ledger, and none where the type reserves none. */
  ghost predicate Opens(rows: Ledger, p: PlannedItem, kind: Kind) {
    && Held(p).Get(kind) !! AllReserved(rows, kind)
    && (BlockSize(p.kind, kind) == 0 ==> p.block.Get(kind) == [])
  }

  lemma BlockRowChanges(rows: Ledger, p: PlannedItem, kind: Kind)
    requires Partitioned(rows) && Opens(rows, p, kind)
    ensures KindChanged(rows, rows + BlockRow(p, kind), p.item, kind, {}, Held(p).Get(kind))
  {
    if BlockSize(p.kind, kind) == 0 {
      assert rows + BlockRow(p, kind) == rows;
      assert Held(p).Get(kind) == {};
    } else {
      ExchangeChanges(rows, Reservation(p.item, kind, p.block.Get(kind), []));
    }
  }

  lemma BlockStep(rows: Ledger, p: PlannedItem, kind: Kind)
    requires Partitioned(rows) && Opens(rows, p, kind)
    ensures var after := rows + BlockRow(p, kind);
      && KindChanged(rows, after, p.item, kind, NOTHING.Get(kind), Held(p).Get(kind))
      && (forall k :: k != kind && Opens(rows, p, k) ==> Opens(after, p, k))
  {
    var after := rows + BlockRow(p, kind);
    BlockRowChanges(rows, p, kind);
    forall k | k != kind && Opens(rows, p, k)
      ensures Opens(after, p, k)
    {
      assert AllReserved(after, k) == AllReserved(rows, k) + {};
    }
  }

  lemma BlockRowsChange(rows: Ledger, p: PlannedItem)
    requires Partitioned(rows) && Opens(rows, p, Prd) && Opens(rows, p, Adr) && Opens(rows, p, Wo)
    ensures Changed(rows, rows + BlockRows(p), p.item, NOTHING, Held(p))
  {
    var a, b, c := BlockRow(p, Prd), BlockRow(p, Adr), BlockRow(p, Wo);
    assert rows + BlockRows(p) == ((rows + a) + b) + c;
    BlockStep(rows, p, Prd);
    BlockStep(rows + a, p, Adr);
    BlockStep((rows + a) + b, p, Wo);
    KindsChangeTheItem(rows, rows + a, (rows + a) + b, ((rows + a) + b) + c, p.item, NOTHING, Held(p));
  }

  /** Each item holds exactly its planned block, no other item holds anything, and
      nothing at or above `to` is reserved. */
  ghost predicate Opened(rows: Ledger, items: seq<PlannedItem>, to: PerKind<nat>) {
    && Partitioned(rows)
    && (forall i, kind :: 0 <= i < |items| ==> Live(rows, items[i].item, kind) == Held(items[i]).Get(kind))
    && (forall item: Item, kind ::
          (forall i :: 0 <= i < |items| ==> items[i].item != item) ==> Live(rows, item, kind) == {})
    && (forall kind, n :: n in AllReserved(rows, kind) ==> n < to.Get(kind))
  }

  ghost predicate Tiled(items: seq<PlannedItem>, from: PerKind<nat>, to: PerKind<nat>) {
    forall kind :: Tiles(items, kind, from.Get(kind), to.Get(kind))
  }

  /** Where the last item's block starts. */
  function Back(to: PerKind<nat>, item: ItemType): PerKind<nat>
    requires forall kind :: to.Get(kind) >= BlockSize(item, kind)
  {
    assert to.Get(Prd) >= BlockSize(item, Prd) && to.Get(Adr) >= BlockSize(item, Adr);
    assert to.Get(Wo) >= BlockSize(item, Wo);
    PerKind(to.prd - BlockSize(item, Prd), to.adr - BlockSize(item, Adr), to.wo - BlockSize(item, Wo))
  }

  lemma TiledBack(items: seq<PlannedItem>, from: PerKind<nat>, to: PerKind<nat>)
    requires items != [] && Tiled(items, from, to)
    ensures forall kind :: to.Get(kind) >= BlockSize(Last(items).kind, kind)
    ensures var back := Back(to, Last(items).kind);
      && Tiled(Init(items), from, back)
      && (forall kind :: Last(items).block.Get(kind) == Range(back.Get(kind), BlockSize(Last(items).kind, kind)))
      && (forall kind :: to.Get(kind) == back.Get(kind) + BlockSize(Last(items).kind, kind))
  {
    forall kind: Kind
      ensures to.Get(kind) >= BlockSize(Last(items).kind, kind)
    {
      assert Tiles(items, kind, from.Get(kind), to.Get(kind));
    }
    var back := Back(to, Last(items).kind);
    forall kind: Kind
      ensures back.Get(kind) == to.Get(kind) - BlockSize(Last(items).kind, kind)
      ensures Tiles(Init(items), kind, from.Get(kind), back.Get(kind))
      ensures Last(items).block.Get(kind) == Range(back.Get(kind), BlockSize(Last(items).kind, kind))
    {
      assert Tiles(items, kind, from.Get(kind), to.Get(kind));
    }
  }

  lemma HeldIs(p: PlannedItem, kind: Kind)
    ensures Held(p).Get(kind) == Elements(p.block.Get(kind))
  {
  }

  lemma OpenStep(rows: Ledger, items: seq<PlannedItem>, back: PerKind<nat>, to: PerKind<nat>)
    requires items != [] && Apart(items) && Opened(rows, Init(items), back)
    requires forall kind :: Last(items).block.Get(kind) == Range(back.Get(kind), BlockSize(Last(items).kind, kind))
    requires forall kind :: to.Get(kind) == back.Get(kind) + BlockSize(Last(items).kind, kind)
    ensures Opened(rows + BlockRows(Last(items)), items, to)
  {
    var p := Last(items);
    forall kind: Kind
      ensures Opens(rows, p, kind)
      ensures forall n :: n in Held(p).Get(kind) ==> back.Get(kind) <= n < to.Get(kind)
    {
      HeldIs(p, kind);
    }
    BlockRowsChange(rows, p);
    var after := rows + BlockRows(p);
    forall i, kind: Kind | 0 <= i < |items|
      ensures Live(after, items[i].item, kind) == Held(items[i]).Get(kind)
    {
      if i < |items| - 1 {
        assert Init(items)[i] == items[i];
      } else {
        assert Live(rows, p.item, kind) == {};
      }
    }
    forall item: Item, kind: Kind | forall i :: 0 <= i < |items| ==> items[i].item != item
      ensures Live(after, item, kind) == {}
    {
      assert forall i :: 0 <= i < |items| - 1 ==> Init(items)[i] == items[i];
      assert items[|items| - 1].item != item;
    }
  }

  lemma {:induction false} OpenRowsHold(entries: seq<Entry>, items: seq<PlannedItem>, from: PerKind<nat>,
                                        to: PerKind<nat>)
    requires Tiled(items, from, to) && Apart(items)
    ensures Opened(OpenRows(entries, items), items, to)
  {
    if items == [] {
      var rows := [PlanRow(entries)];
      assert Init(rows) == [];
      forall item: Item, kind: Kind
        ensures Live(rows, item, kind) == {} && MovedValues(ReservesOf(rows, item), kind) == {}
        ensures ReservedValues(ReservesOf(rows, item), kind) == {} && AllReserved(rows, kind) == {}
      {
        assert ReservesOf(rows, item) == [];
      }
    } else {
      TiledBack(items, from, to);
      var back := Back(to, Last(items).kind);
      OpenRowsHold(entries, Init(items), from, back);
      OpenStep(OpenRows(entries, Init(items)), items, back, to);
    }
  }

  // ---- any run of a batch

  /** What may happen to a batch's numbers: a merge turn's check, or any row that reserves nothing. */
  datatype Event =
    | Wrote(row: Row)
    | Turn(item: Item, onMain: PerKind<set<nat>>, branch: Branch)

  ghost function Happen(rows: Ledger, event: Event): Ledger {
    match event
    case Wrote(row) => if row.ReserveRow? then rows else rows + [row]
    case Turn(item, onMain, branch) =>
      var moves := Confirmed(rows, item, onMain, branch);
      if moves.None? then rows else rows + RenumberRows(item, moves.value)
  }

  ghost function Replay(rows: Ledger, events: seq<Event>): Ledger {
    if events == [] then rows else Happen(Replay(rows, Init(events)), Last(events))
  }

  lemma TurnIsFresh(rows: Ledger, item: Item, onMain: PerKind<set<nat>>, branch: Branch)
    requires Confirmed(rows, item, onMain, branch).Some?
    ensures AllFresh(rows, item, onMain, Confirmed(rows, item, onMain, branch).value)
  {
    forall kind: Kind
      ensures MovesFreshly(rows, item, onMain.Get(kind), kind, Confirmed(rows, item, onMain, branch).value.Get(kind))
    {
      TurnsMoveFreshly(rows, item, onMain, branch, kind);
    }
  }

  lemma EventKeeps(rows: Ledger, event: Event)
    requires Partitioned(rows)
    ensures Partitioned(Happen(rows, event))
    ensures forall item: Item, kind :: |Live(Happen(rows, event), item, kind)| == |Live(rows, item, kind)|
  {
    match event
    case Wrote(row) => if !row.ReserveRow? { OtherRowsKeep(rows, row); }
    case Turn(item, onMain, branch) =>
      var moves := Confirmed(rows, item, onMain, branch);
      if moves.Some? {
        TurnIsFresh(rows, item, onMain, branch);
        TurnKeeps(rows, item, onMain, moves.value);
      }
  }

  lemma {:induction false} OtherRowsKeep(rows: Ledger, row: Row)
    requires Partitioned(rows) && !row.ReserveRow?
    ensures Partitioned(rows + [row])
    ensures forall item: Item, kind :: Live(rows + [row], item, kind) == Live(rows, item, kind)
  {
    InitSnoc(rows, row);
    assert forall item: Item :: ReservesOf(rows + [row], item) == ReservesOf(rows, item);
  }

  lemma {:induction false} TurnKeeps(rows: Ledger, item: Item, onMain: PerKind<set<nat>>, moves: Moves)
    requires Partitioned(rows) && AllFresh(rows, item, onMain, moves)
    ensures Partitioned(rows + RenumberRows(item, moves))
    ensures forall other: Item, kind ::
      |Live(rows + RenumberRows(item, moves), other, kind)| == |Live(rows, other, kind)|
  {
    TurnChanges(rows, item, onMain, moves);
    forall other: Item, kind: Kind
      ensures |Live(rows + RenumberRows(item, moves), other, kind)| == |Live(rows, other, kind)|
    {
      TurnKeepsCounts(rows, item, onMain, moves, other, kind);
    }
  }

  lemma {:induction false} ReplayKeeps(rows: Ledger, events: seq<Event>)
    requires Partitioned(rows)
    ensures Partitioned(Replay(rows, events))
    ensures forall item: Item, kind :: |Live(Replay(rows, events), item, kind)| == |Live(rows, item, kind)|
  {
    if events != [] {
      ReplayKeeps(rows, Init(events));
      EventKeeps(Replay(rows, Init(events)), Last(events));
    }
  }

  /** A feature reserves one PRD, three ADRs and ten work orders, a fix one ADR and five
      work orders, an order nothing. */
  ghost predicate HoldsItsBlock(rows: Ledger, p: PlannedItem) {
    match p.kind
    case Feature => |Live(rows, p.item, Prd)| == 1 && |Live(rows, p.item, Adr)| == 3 && |Live(rows, p.item, Wo)| == 10
    case Fix => |Live(rows, p.item, Prd)| == 0 && |Live(rows, p.item, Adr)| == 1 && |Live(rows, p.item, Wo)| == 5
    case Order => forall kind :: Live(rows, p.item, kind) == {}
  }

  /** From plan_batch through any run of merge turns and other rows, the live blocks
      of different items stay disjoint, and each item still holds exactly as many
      numbers of each kind as its type reserves. */
  lemma {:induction false} BlocksStayApartAndWhole(issues: seq<Issue>, c: Config, entries: seq<Entry>,
                                                   events: seq<Event>)
    requires c.Valid() && Repeated(Numbers(issues)) == {}
    ensures var items := PlanIssues(issues, c).items; var rows := Replay(OpenRows(entries, items), events);
      && (forall a: Item, b: Item, kind :: a != b ==> Live(rows, a, kind) !! Live(rows, b, kind))
      && (forall p, kind :: p in items ==> |Live(rows, p.item, kind)| == BlockSize(p.kind, kind))
      && (forall p :: p in items ==> HoldsItsBlock(rows, p))
  {
    BlocksKeepSize(issues, c, entries, events);
    var rows := Replay(OpenRows(entries, PlanIssues(issues, c).items), events);
    forall p | p in PlanIssues(issues, c).items
      ensures HoldsItsBlock(rows, p)
    {
      BlockIsWhole(rows, p);
    }
  }

  lemma BlockIsWhole(rows: Ledger, p: PlannedItem)
    requires forall kind :: |Live(rows, p.item, kind)| == BlockSize(p.kind, kind)
    ensures HoldsItsBlock(rows, p)
  {
    assert |Live(rows, p.item, Prd)| == BlockSize(p.kind, Prd) && |Live(rows, p.item, Adr)| == BlockSize(p.kind, Adr);
    assert |Live(rows, p.item, Wo)| == BlockSize(p.kind, Wo);
  }

  lemma {:induction false} BlocksKeepSize(issues: seq<Issue>, c: Config, entries: seq<Entry>, events: seq<Event>)
    requires c.Valid() && Repeated(Numbers(issues)) == {}
    ensures var items := PlanIssues(issues, c).items; var rows := Replay(OpenRows(entries, items), events);
      && (forall a: Item, b: Item, kind :: a != b ==> Live(rows, a, kind) !! Live(rows, b, kind))
      && (forall p, kind :: p in items ==> |Live(rows, p.item, kind)| == BlockSize(p.kind, kind))
  {
    var d := PlanIssues(issues, c);
    var rows := OpenRows(entries, d.items);
    ItemsAreDistinct(issues, c);
    forall kind: Kind
      ensures Tiles(d.items, kind, Start(c).free.Get(kind), d.free.Get(kind))
    {
      BlocksTile(issues, c, kind);
    }
    OpenRowsHold(entries, d.items, Start(c).free, d.free);
    ReplayKeeps(rows, events);
    forall p, kind: Kind | p in d.items
      ensures |Live(rows, p.item, kind)| == BlockSize(p.kind, kind)
    {
      var i :| 0 <= i < |d.items| && d.items[i] == p;
      assert Live(rows, d.items[i].item, kind) == Held(p).Get(kind);
      TileSize(d.items, kind, Start(c).free.Get(kind), d.free.Get(kind), i);
      HeldIs(p, kind);
      DistinctSize(p.block.Get(kind));
    }
  }

  lemma {:induction false} TileSize(items: seq<PlannedItem>, kind: Kind, from: nat, to: nat, i: nat)
    requires Tiles(items, kind, from, to) && i < |items|
    ensures |items[i].block.Get(kind)| == BlockSize(items[i].kind, kind)
    ensures forall x, y :: 0 <= x < y < |items[i].block.Get(kind)| ==>
      items[i].block.Get(kind)[x] != items[i].block.Get(kind)[y]
  {
    if i < |items| - 1 {
      assert Init(items)[i] == items[i];
      TileSize(Init(items), kind, from, to - BlockSize(Last(items).kind, kind), i);
    }
  }

  // ---- the branch after a turn

  function RenameNumber(moves: Moves, number: nat): nat {
    Target(moves.adr, number)
  }

  function RewrittenLine(file: File, moves: Moves, i: nat): Line
    requires i < |file.head|
  {
    if Added(file.main, file.head, i) then Rename(file.head[i], moves) else file.head[i]
  }

  function RewrittenFile(file: File, moves: Moves): File {
    File(file.main, seq(|file.head|, i requires 0 <= i < |file.head| => RewrittenLine(file, moves, i)))
  }

  /** _renumber: the lines the item added rewritten, its ADR files renamed; every
      line of main's stays. */
  function Renumbered(branch: Branch, moves: Moves): Branch {
    Branch(seq(|branch.files|, f requires 0 <= f < |branch.files| => RewrittenFile(branch.files[f], moves)),
           set n | n in branch.newAdrs :: RenameNumber(moves, n))
  }

  /** A citation in a rewritten added line is a new number, or stood there before and was not moved. */
  lemma RewrittenCites(line: Line, moves: Moves, p: Piece, kind: Kind, number: nat)
    requires CleanMoves(moves) && p in Rename(line, moves) && Cites(p, kind, number)
    ensures number in Come(moves).Get(kind) || (p in line && !Moved(moves.Get(kind), number))
  {
    var i :| 0 <= i < |line| && RenamePiece(line[i], moves) == p;
    var q := line[i];
    if q.Cite? && Cites(q, q.kind, q.number) && Moved(moves.Get(q.kind), q.number) {
      TargetIsFresh(moves.Get(q.kind), q.number);
      var pair :| pair in moves.Get(q.kind) && pair.from == q.number && pair.to == Target(moves.Get(q.kind), q.number);
      NewsHold(moves, kind, pair);
    } else {
      assert p == q && q in line;
    }
  }

  lemma NewsHold(moves: Moves, kind: Kind, pair: Pair)
    requires pair in moves.Get(kind)
    ensures pair.to in Come(moves).Get(kind) && pair.from in Gone(moves).Get(kind)
  {
    var pairs := moves.Get(kind);
    var i :| 0 <= i < |pairs| && pairs[i] == pair;
    assert News(pairs)[i] in News(pairs) && Olds(pairs)[i] in Olds(pairs);
  }

  /** A line the rewritten branch adds is the rewriting of a line it added before. */
  lemma AddedCameFromAdded(file: File, moves: Moves, i: nat)
    requires i < |file.head| && Added(file.main, RewrittenFile(file, moves).head, i)
    ensures exists j :: 0 <= j < |file.head| && Added(file.main, file.head, j)
                     && RewrittenFile(file, moves).head[i] == Rename(file.head[j], moves)
  {
    var head, after := file.head, RewrittenFile(file, moves).head;
    if Added(file.main, head, i) {
      assert after[i] == Rename(head[i], moves);
    } else {
      var line := head[i];
      assert multiset(head[..i])[line] < multiset(after[..i])[line];
      var j := MoreCopies(head[..i], after[..i], line);
      assert after[j] == Rename(head[j], moves);
    }
  }

  lemma {:induction false} MoreCopies(a: seq<Line>, b: seq<Line>, line: Line) returns (j: nat)
    requires |a| == |b| && multiset(a)[line] < multiset(b)[line]
    ensures j < |a| && b[j] == line && a[j] != line
  {
    assert a == Init(a) + [Last(a)] && b == Init(b) + [Last(b)];
    if Last(b) == line && Last(a) != line {
      j := |a| - 1;
    } else {
      j := MoreCopies(Init(a), Init(b), line);
    }
  }

  // ---- a confirmed turn needs no other

  /** A number the rewritten branch uses is a new one, or one it used before that did not move. */
  lemma UsedAfterOrBefore(branch: Branch, moves: Moves, kind: Kind, n: nat)
    requires CleanMoves(moves) && Uses(Renumbered(branch, moves), kind, n)
    ensures n in Come(moves).Get(kind) || (Uses(branch, kind, n) && !Moved(moves.Get(kind), n))
  {
    var after := Renumbered(branch, moves);
    if f, i :| CitedAt(after, f, i, kind, n) {
      CitedAfterOrBefore(branch, moves, f, i, kind, n);
    } else {
      var m :| m in branch.newAdrs && n == Target(moves.adr, m);
      if Moved(moves.adr, m) {
        TargetIsFresh(moves.adr, m);
        var pair :| pair in moves.adr && pair.from == m && pair.to == n;
        NewsHold(moves, Adr, pair);
      } else {
        TargetStays(moves.adr, m);
      }
    }
  }

  lemma CitedAfterOrBefore(branch: Branch, moves: Moves, f: nat, i: nat, kind: Kind, n: nat)
    requires CleanMoves(moves) && CitedAt(Renumbered(branch, moves), f, i, kind, n)
    ensures n in Come(moves).Get(kind) || (Uses(branch, kind, n) && !Moved(moves.Get(kind), n))
  {
    var file := branch.files[f];
    var after := RewrittenFile(file, moves);
    assert Renumbered(branch, moves).files[f] == after;
    var p :| p in after.head[i] && Cites(p, kind, n);
    AddedCameFromAdded(file, moves, i);
    var j :| 0 <= j < |file.head| && Added(file.main, file.head, j) && after.head[i] == Rename(file.head[j], moves);
    RewrittenCites(file.head[j], moves, p, kind, n);
    if p in file.head[j] {
      assert CitedIn(file, j, kind, n);
      assert CitedAt(branch, f, j, kind, n);
    }
  }

  /** The moves of a turn move every collided number of the kind. */
  lemma CollidedIsGone(rows: Ledger, item: Item, onMain: PerKind<set<nat>>, branch: Branch, moves: Moves,
                       kind: Kind, n: nat)
    requires Confirmed(rows, item, onMain, branch) == Some(moves) && n in Collided(rows, item, onMain, branch, kind)
    ensures Moved(moves.Get(kind), n)
  {
    var numbers := Sorted(Collided(rows, item, onMain, branch, kind));
    var i :| 0 <= i < |numbers| && numbers[i] == n;
    assert moves.Get(kind) == Pairs(numbers, Top(Taken(rows, onMain, kind)));
    assert moves.Get(kind)[i] in moves.Get(kind) && moves.Get(kind)[i].from == n;
  }

  /** A turn moves a number exactly when the item holds it, it stands on main, and the item
      cites it in a line it added or named an ADR file by it. */
  lemma {:induction false} MovedIff(rows: Ledger, item: Item, onMain: PerKind<set<nat>>, branch: Branch, moves: Moves,
                                    kind: Kind, n: nat)
    requires Confirmed(rows, item, onMain, branch) == Some(moves)
    ensures Moved(moves.Get(kind), n) <==>
      && n in Live(rows, item, kind) && n in onMain.Get(kind)
      && (|| (exists f, i, p :: && 0 <= f < |branch.files| && 0 <= i < |branch.files[f].head|
                                && Added(branch.files[f].main, branch.files[f].head, i)
                                && p in branch.files[f].head[i] && Cites(p, kind, n))
          || (kind == Adr && n in branch.newAdrs))
  {
    var numbers := Sorted(Collided(rows, item, onMain, branch, kind));
    assert moves.Get(kind) == Pairs(numbers, Top(Taken(rows, onMain, kind)));
    UsesIff(branch, kind, n);
    if Moved(moves.Get(kind), n) {
      var pair :| pair in moves.Get(kind) && pair.from == n;
      assert n in numbers;
    }
    if n in numbers { CollidedIsGone(rows, item, onMain, branch, moves, kind, n); }
  }

  lemma {:induction false} UsesIff(branch: Branch, kind: Kind, n: nat)
    ensures Uses(branch, kind, n) <==>
      || (exists f, i, p :: && 0 <= f < |branch.files| && 0 <= i < |branch.files[f].head|
                            && Added(branch.files[f].main, branch.files[f].head, i)
                            && p in branch.files[f].head[i] && Cites(p, kind, n))
      || (kind == Adr && n in branch.newAdrs)
  {
    if f: nat, i: nat :| CitedAt(branch, f, i, kind, n) {
      var p :| p in branch.files[f].head[i] && Cites(p, kind, n);
    }
    if f, i, p :| && 0 <= f < |branch.files| && 0 <= i < |branch.files[f].head|
                  && Added(branch.files[f].main, branch.files[f].head, i)
                  && p in branch.files[f].head[i] && Cites(p, kind, n) {
      assert CitedIn(branch.files[f], i, kind, n);
      assert CitedAt(branch, f, i, kind, n);
    }
  }

  /** The moved numbers are taken in ascending order, and become the very next ones after
      the largest on main or ever reserved. */
  lemma {:induction false} NewNumbersAreNext(rows: Ledger, item: Item, onMain: PerKind<set<nat>>, branch: Branch,
                                             moves: Moves, kind: Kind)
    requires Confirmed(rows, item, onMain, branch) == Some(moves)
    ensures var pairs, top := moves.Get(kind), Top(onMain.Get(kind) + AllReserved(rows, kind));
      && (forall i :: 0 <= i < |pairs| ==> pairs[i].to == top + 1 + i)
      && (forall i, j :: 0 <= i < j < |pairs| ==> pairs[i].from < pairs[j].from)
      && (pairs != [] ==> Last(pairs).to <= 9999)
  {
    var numbers := Sorted(Collided(rows, item, onMain, branch, kind));
    assert moves.Get(kind) == Pairs(numbers, Top(Taken(rows, onMain, kind)));
    assert CollidedKinds(rows, item, onMain, branch).Get(kind) == numbers;
    assert !Overflows(rows, onMain, CollidedKinds(rows, item, onMain, branch), kind);
  }

  lemma FreshMovesAreAllClean(rows: Ledger, item: Item, onMain: PerKind<set<nat>>, moves: Moves)
    requires AllFresh(rows, item, onMain, moves)
    ensures CleanMoves(moves)
  {
    assert MovesFreshly(rows, item, onMain.Get(Prd), Prd, moves.Get(Prd));
    assert MovesFreshly(rows, item, onMain.Get(Adr), Adr, moves.Get(Adr));
    assert MovesFreshly(rows, item, onMain.Get(Wo), Wo, moves.Get(Wo));
    FreshMovesAreClean(rows, item, onMain.prd, Prd, moves.prd);
    FreshMovesAreClean(rows, item, onMain.adr, Adr, moves.adr);
    FreshMovesAreClean(rows, item, onMain.wo, Wo, moves.wo);
  }

  lemma {:induction false} NewIsOffMain(rows: Ledger, item: Item, onMain: PerKind<set<nat>>, moves: Moves,
                                        kind: Kind, n: nat)
    requires AllFresh(rows, item, onMain, moves) && n in Come(moves).Get(kind)
    ensures n !in onMain.Get(kind) && n !in AllReserved(rows, kind)
  {
    var pairs := moves.Get(kind);
    assert MovesFreshly(rows, item, onMain.Get(kind), kind, pairs);
    var i :| 0 <= i < |pairs| && pairs[i].to == n;
    assert pairs[i] in pairs;
  }

  /** After a turn, no number the item still uses from its block is on main. */
  lemma NothingCollidesAfter(rows: Ledger, item: Item, onMain: PerKind<set<nat>>, branch: Branch, moves: Moves,
                             kind: Kind)
    requires Partitioned(rows) && Confirmed(rows, item, onMain, branch) == Some(moves)
    ensures Collided(rows + RenumberRows(item, moves), item, onMain, Renumbered(branch, moves), kind) == {}
  {
    TurnIsFresh(rows, item, onMain, branch);
    FreshMovesAreAllClean(rows, item, onMain, moves);
    TurnChanges(rows, item, onMain, moves);
    var after, later := rows + RenumberRows(item, moves), Renumbered(branch, moves);
    forall n | n in Live(after, item, kind) && Uses(later, kind, n)
      ensures n !in onMain.Get(kind)
    {
      UsedAfterOrBefore(branch, moves, kind, n);
      if n in Come(moves).Get(kind) {
        NewIsOffMain(rows, item, onMain, moves, kind, n);
      } else if n in onMain.Get(kind) {
        CollidedIsGone(rows, item, onMain, branch, moves, kind, n);
      }
    }
  }

  lemma NothingToAllocate(rows: Ledger, onMain: PerKind<set<nat>>)
    ensures Allocated(rows, onMain, PerKind([], [], [])) == Some(NO_MOVES)
  {
    var none: PerKind<seq<nat>> := PerKind([], [], []);
    forall kind: Kind
      ensures none.Get(kind) == [] && PairsOf(rows, onMain, none, kind) == []
    {
    }
  }

  lemma NoneCollidedMovesNothing(rows: Ledger, item: Item, onMain: PerKind<set<nat>>, branch: Branch)
    requires Collided(rows, item, onMain, branch, Prd) == {}
    requires Collided(rows, item, onMain, branch, Adr) == {}
    requires Collided(rows, item, onMain, branch, Wo) == {}
    ensures Confirmed(rows, item, onMain, branch) == Some(NO_MOVES)
  {
    assert Sorted({}) == [];
    NothingToAllocate(rows, onMain);
  }

  /** The check is done in one turn: run again on the branch and ledger it left,
      it moves nothing. */
  lemma SecondCheckMovesNothing(rows: Ledger, item: Item, onMain: PerKind<set<nat>>, branch: Branch, moves: Moves)
    requires Partitioned(rows) && Confirmed(rows, item, onMain, branch) == Some(moves)
    ensures Confirmed(rows + RenumberRows(item, moves), item, onMain, Renumbered(branch, moves)) == Some(NO_MOVES)
  {
    NothingCollidesAfter(rows, item, onMain, branch, moves, Prd);
    NothingCollidesAfter(rows, item, onMain, branch, moves, Adr);
    NothingCollidesAfter(rows, item, onMain, branch, moves, Wo);
    NoneCollidedMovesNothing(rows + RenumberRows(item, moves), item, onMain, Renumbered(branch, moves));
  }

  /** Citations of numbers on main or reserved in the batch stay apart: the turn's
      renaming sends two of them to one number only if they were one. */
  lemma {:induction false} RenamingIsInjective(rows: Ledger, item: Item, onMain: PerKind<set<nat>>, branch: Branch,
                                               moves: Moves, kind: Kind, a: nat, b: nat)
    requires Confirmed(rows, item, onMain, branch) == Some(moves)
    requires a in Taken(rows, onMain, kind) && b in Taken(rows, onMain, kind)
    ensures Target(moves.Get(kind), a) == Target(moves.Get(kind), b) <==> a == b
  {
    TurnIsFresh(rows, item, onMain, branch);
    assert MovesFreshly(rows, item, onMain.Get(kind), kind, moves.Get(kind));
    FreshMovesAreClean(rows, item, onMain.Get(kind), kind, moves.Get(kind));
    TargetIsInjective(moves.Get(kind), a, b);
  }

  // ---- the branch rewritten in place

  /** _renumber's rewriting of one file: each line the item added, by one
      substitution after another. */
  method RewriteFile(file: File, moves: Moves) returns (lines: seq<Line>)
    requires CleanMoves(moves)
    ensures lines == RewrittenFile(file, moves).head
  {
    var marks := AddedMarks(file.main, file.head);
    lines := [];
    for i := 0 to |file.head|
      invariant |lines| == i && forall j :: 0 <= j < i ==> lines[j] == RewrittenLine(file, moves, j)
    {
      var line := file.head[i];
      if marks[i] { line := Rewrite(line, moves); }
      lines := lines + [line];
    }
  }

  // ---- the check itself

  lemma InitOfSorted(a: seq<nat>)
    requires a != [] && Ascending(a)
    ensures forall n :: n in Init(a) <==> n in a && n != Last(a)
  {
    assert a == Init(a) + [Last(a)];
  }

  lemma {:induction false} SortedIsUnique(a: seq<nat>, b: seq<nat>)
    requires Ascending(a) && Ascending(b)
    requires forall n :: n in a <==> n in b
    ensures a == b
  {
    assert a != [] <==> b != [] by {
      if a != [] { assert a[0] in b; }
      if b != [] { assert b[0] in a; }
    }
    if a != [] {
      assert Last(a) in b && Last(b) in a;
      assert a == Init(a) + [Last(a)] && b == Init(b) + [Last(b)];
      assert Last(a) == Last(b);
      InitOfSorted(a);
      InitOfSorted(b);
      SortedIsUnique(Init(a), Init(b));
    }
  }

  lemma SmallestFirst(top: nat, numbers: seq<nat>)
    requires Ascending(numbers) && forall n :: n in numbers ==> top < n
    ensures Ascending([top] + numbers)
  {
    var all := [top] + numbers;
    forall i, j | 0 <= i < j < |all|
      ensures all[i] < all[j]
    {
      assert all[j] == numbers[j - 1] && numbers[j - 1] in numbers;
      if i > 0 { assert all[i] == numbers[i - 1]; }
    }
  }

  /** The file's added lines cite the number. */
  method CitedInFile(file: File, kind: Kind, number: nat) returns (cited: bool)
    ensures cited <==> exists i :: 0 <= i < |file.head| && CitedIn(file, i, kind, number)
  {
    var marks := AddedMarks(file.main, file.head);
    cited := false;
    for i := 0 to |file.head|
      invariant cited <==> exists j :: 0 <= j < i && CitedIn(file, j, kind, number)
    {
      if marks[i] && exists p | p in file.head[i] :: Cites(p, kind, number) {
        assert CitedIn(file, i, kind, number);
        cited := true;
      }
    }
  }

  method IsUsed(branch: Branch, kind: Kind, number: nat) returns (used: bool)
    ensures used <==> Uses(branch, kind, number)
  {
    used := kind == Adr && number in branch.newAdrs;
    for f := 0 to |branch.files|
      invariant used <==>
        || (exists g: nat, i: nat :: g < f && CitedAt(branch, g, i, kind, number))
        || (kind == Adr && number in branch.newAdrs)
    {
      var cited := CitedInFile(branch.files[f], kind, number);
      if cited {
        ghost var i :| 0 <= i < |branch.files[f].head| && CitedIn(branch.files[f], i, kind, number);
        assert CitedAt(branch, f, i, kind, number);
        used := true;
      }
    }
  }

  /** One kind of _used, kept where main holds the number. */
  method CollidedNumbers(held: set<nat>, onMain: set<nat>, branch: Branch, kind: Kind) returns (numbers: seq<nat>)
    ensures numbers == Sorted(UsedOf(held, onMain, branch, kind))
  {
    var left := held;
    ghost var collided := UsedOf(held, onMain, branch, kind);
    numbers := [];
    while left != {}
      invariant left <= held && Ascending(numbers)
      invariant forall n :: n in numbers <==> n in collided && n !in left
      invariant forall n, m :: n in numbers && m in left ==> m < n
      decreases left
    {
      var top := MaxOf(left);
      var used := IsUsed(branch, kind, top);
      var hit := used && top in onMain;
      assert hit <==> top in collided;
      if hit {
        SmallestFirst(top, numbers);
        numbers := [top] + numbers;
      }
      left := left - {top};
    }
    SortedIsUnique(numbers, Sorted(collided));
  }

  /** confirm_reservations. */
  method ConfirmReservations(rows: Ledger, item: Item, onMain: PerKind<set<nat>>, branch: Branch)
    returns (moves: Option<Moves>)
    ensures moves == Confirmed(rows, item, onMain, branch)
  {
    var prd := CollidedNumbers(Live(rows, item, Prd), onMain.prd, branch, Prd);
    var adr := CollidedNumbers(Live(rows, item, Adr), onMain.adr, branch, Adr);
    var wo := CollidedNumbers(Live(rows, item, Wo), onMain.wo, branch, Wo);
    var collided := PerKind(prd, adr, wo);
    assert collided == CollidedKinds(rows, item, onMain, branch);
    moves := Allocate(rows, onMain, collided);
  }
}
