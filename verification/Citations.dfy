/** The lines a renumber rewrites (tools/factory/conductor_merge.py, added_marks,
    _rewrite). A line is a sequence of plain text and citations: the token of a
    number family, its number and the digits it is written with. */
module Citations {
  import opened Rows
  import opened Plan

  datatype Piece = Plain(text: string) | Cite(kind: Kind, number: nat, width: nat)
  type Line = seq<Piece>

  /** One number moved: every citation of `from` becomes one of `to`. */
  datatype Pair = Pair(from: nat, to: nat)
  type Moves = PerKind<seq<Pair>>

  function DigitCount(n: nat): nat {
    if n < 10 then 1 else 1 + DigitCount(n / 10)
  }

  /** The digits a number takes when padded to a width. */
  function Padded(number: nat, width: nat): nat {
    if width < DigitCount(number) then DigitCount(number) else width
  }

  /** A citation of the number: an ADR at any width, another kind at its four digits. */
  predicate Cites(p: Piece, kind: Kind, number: nat) {
    p.Cite? && p.kind == kind && p.number == number && (kind == Adr || p.width == Padded(number, 4))
  }

  // ---- one substitution after another

  function SubstPiece(p: Piece, kind: Kind, pair: Pair): Piece {
    if Cites(p, kind, pair.from) then Cite(kind, pair.to, Padded(pair.to, p.width)) else p
  }

  function Subst(line: Line, kind: Kind, pair: Pair): (after: Line)
    ensures |after| == |line|
  {
    seq(|line|, i requires 0 <= i < |line| => SubstPiece(line[i], kind, pair))
  }

  function SubstAll(line: Line, kind: Kind, pairs: seq<Pair>): Line {
    if pairs == [] then line else Subst(SubstAll(line, kind, Init(pairs)), kind, Last(pairs))
  }

  // ---- all of them at once

  /** Where the pairs send a number. */
  function Target(pairs: seq<Pair>, number: nat): nat {
    if pairs == [] then number
    else if Last(pairs).from == number then Last(pairs).to
    else Target(Init(pairs), number)
  }

  predicate Moved(pairs: seq<Pair>, number: nat) {
    exists pair :: pair in pairs && pair.from == number
  }

  function RenamePiece(p: Piece, moves: Moves): Piece {
    if p.Cite? && Cites(p, p.kind, p.number) && Moved(moves.Get(p.kind), p.number)
    then
      var to := Target(moves.Get(p.kind), p.number);
      Cite(p.kind, to, Padded(to, p.width))
    else p
  }

  /** The simultaneous renaming: each citation looked up in the moves once. */
  function Rename(line: Line, moves: Moves): (after: Line)
    ensures |after| == |line|
  {
    seq(|line|, i requires 0 <= i < |line| => RenamePiece(line[i], moves))
  }

  /** The pairs move distinct numbers to distinct ones that none of them moves. */
  ghost predicate Clean(pairs: seq<Pair>) {
    && (forall i, j :: 0 <= i < j < |pairs| ==> pairs[i].from != pairs[j].from && pairs[i].to != pairs[j].to)
    && (forall a, b :: a in pairs && b in pairs ==> a.to != b.from)
  }

  ghost predicate CleanMoves(moves: Moves) {
    Clean(moves.prd) && Clean(moves.adr) && Clean(moves.wo)
  }

  lemma CleanPrefix(pairs: seq<Pair>)
    requires pairs != [] && Clean(pairs)
    ensures Clean(Init(pairs)) && !Moved(Init(pairs), Last(pairs).from)
    ensures forall pair :: pair in Init(pairs) ==> pair.to != Last(pairs).from
  {
    assert Last(pairs) in pairs;
    forall pair | pair in Init(pairs)
      ensures pair in pairs && pair.from != Last(pairs).from
    {
      var i :| 0 <= i < |pairs| - 1 && pairs[i] == pair;
    }
  }

  /** Only the moves of one kind, the others none. */
  function Only(kind: Kind, pairs: seq<Pair>): Moves {
    PerKind(if kind == Prd then pairs else [], if kind == Adr then pairs else [], if kind == Wo then pairs else [])
  }

  lemma OnlyGet(kind: Kind, pairs: seq<Pair>, other: Kind)
    ensures Only(kind, pairs).Get(other) == if other == kind then pairs else []
  {
  }

  lemma {:induction false} TargetIsFresh(pairs: seq<Pair>, number: nat)
    requires Moved(pairs, number)
    ensures exists pair :: pair in pairs && pair.from == number && pair.to == Target(pairs, number)
  {
    if Last(pairs).from == number {
      assert Last(pairs) in pairs;
    } else {
      var pair :| pair in pairs && pair.from == number;
      var i :| 0 <= i < |pairs| && pairs[i] == pair;
      assert Init(pairs)[i] == pair;
      TargetIsFresh(Init(pairs), number);
      var found :| found in Init(pairs) && found.from == number && found.to == Target(Init(pairs), number);
      assert found in pairs;
    }
  }

  lemma MovedSnoc(pairs: seq<Pair>, number: nat)
    requires pairs != []
    ensures Moved(pairs, number) <==> Moved(Init(pairs), number) || Last(pairs).from == number
  {
    assert pairs == Init(pairs) + [Last(pairs)];
  }

  /** One more pair of a clean list: what it finds is what was there at the start. */
  lemma PieceStep(p: Piece, kind: Kind, pairs: seq<Pair>)
    requires pairs != [] && Clean(pairs)
    ensures SubstPiece(RenamePiece(p, Only(kind, Init(pairs))), kind, Last(pairs)) == RenamePiece(p, Only(kind, pairs))
  {
    CleanPrefix(pairs);
    if p.Cite? {
      OnlyGet(kind, Init(pairs), p.kind);
      OnlyGet(kind, pairs, p.kind);
      MovedSnoc(pairs, p.number);
      if p.kind == kind && Moved(Init(pairs), p.number) {
        TargetIsFresh(Init(pairs), p.number);
      }
    }
  }

  lemma {:induction false} KindAtOnce(line: Line, kind: Kind, pairs: seq<Pair>)
    requires Clean(pairs)
    ensures SubstAll(line, kind, pairs) == Rename(line, Only(kind, pairs))
  {
    if pairs == [] {
      forall i | 0 <= i < |line|
        ensures RenamePiece(line[i], Only(kind, [])) == line[i]
      {
        if line[i].Cite? { OnlyGet(kind, [], line[i].kind); }
      }
    } else {
      CleanPrefix(pairs);
      KindAtOnce(line, kind, Init(pairs));
      forall i | 0 <= i < |line|
        ensures SubstAll(line, kind, pairs)[i] == RenamePiece(line[i], Only(kind, pairs))
      {
        PieceStep(line[i], kind, pairs);
      }
    }
  }

  /** The moves of a kind leave the other kinds' citations for their own turn. */
  lemma KindsApart(p: Piece, moves: Moves)
    ensures RenamePiece(RenamePiece(RenamePiece(p, Only(Prd, moves.prd)), Only(Adr, moves.adr)), Only(Wo, moves.wo))
         == RenamePiece(p, moves)
  {
  }

  /** _rewrite: kind after kind, pair after pair. Run on clean moves it is the
      simultaneous renaming. */
  method Rewrite(line: Line, moves: Moves) returns (after: Line)
    requires CleanMoves(moves)
    ensures after == Rename(line, moves)
  {
    var kinds := [Prd, Adr, Wo];
    after := line;
    ghost var stages := [line];
    for k := 0 to |kinds|
      invariant |stages| == k + 1 && after == stages[k]
      invariant stages[0] == line
      invariant forall j :: 0 <= j < k ==> stages[j + 1] == SubstAll(stages[j], kinds[j], moves.Get(kinds[j]))
    {
      var pairs := moves.Get(kinds[k]);
      for n := 0 to |pairs|
        invariant after == SubstAll(stages[k], kinds[k], pairs[..n])
      {
        assert Init(pairs[..n + 1]) == pairs[..n];
        after := Subst(after, kinds[k], pairs[n]);
      }
      assert pairs[..|pairs|] == pairs;
      stages := stages + [after];
    }
    KindAtOnce(line, Prd, moves.prd);
    KindAtOnce(stages[1], Adr, moves.adr);
    KindAtOnce(stages[2], Wo, moves.wo);
    assert stages[1] == SubstAll(stages[0], kinds[0], moves.Get(kinds[0]));
    assert stages[2] == SubstAll(stages[1], kinds[1], moves.Get(kinds[1]));
    assert stages[3] == SubstAll(stages[2], kinds[2], moves.Get(kinds[2]));
    forall i | 0 <= i < |line|
      ensures after[i] == Rename(line, moves)[i]
    {
      KindsApart(line[i], moves);
    }
  }

  // ---- what the renaming keeps

  lemma {:induction false} TargetStays(pairs: seq<Pair>, number: nat)
    requires !Moved(pairs, number)
    ensures Target(pairs, number) == number
  {
    if pairs != [] {
      assert Last(pairs) in pairs && forall pair :: pair in Init(pairs) ==> pair in pairs;
      TargetStays(Init(pairs), number);
    }
  }

  /** Two numbers that are no fresh one are cited alike after the renaming only if
      they were before: it is injective on every number in use. */
  lemma {:induction false} TargetIsInjective(pairs: seq<Pair>, a: nat, b: nat)
    requires Clean(pairs)
    requires forall pair :: pair in pairs ==> pair.to != a && pair.to != b
    ensures Target(pairs, a) == Target(pairs, b) <==> a == b
  {
    if Moved(pairs, a) { TargetIsFresh(pairs, a); } else { TargetStays(pairs, a); }
    if Moved(pairs, b) { TargetIsFresh(pairs, b); } else { TargetStays(pairs, b); }
  }

  /** Nothing renamed still cites a moved number. */
  lemma NothingCitesTheOld(p: Piece, moves: Moves, kind: Kind, number: nat)
    requires CleanMoves(moves) && Moved(moves.Get(kind), number)
    ensures !Cites(RenamePiece(p, moves), kind, number)
  {
    if p.Cite? && Cites(p, p.kind, p.number) && Moved(moves.Get(p.kind), p.number) {
      TargetIsFresh(moves.Get(p.kind), p.number);
    }
  }

  lemma {:induction false} DigitsAreCounted(n: nat, digits: nat)
    requires digits > 0
    ensures DigitCount(n) <= digits <==> n < TenTo(digits)
  {
    TenToIsPositive(digits - 1);
    if n >= 10 && digits > 1 { DigitsAreCounted(n / 10, digits - 1); }
  }

  lemma {:induction false} TenToIsPositive(digits: nat)
    ensures TenTo(digits) >= 1
  {
    if digits > 0 { TenToIsPositive(digits - 1); }
  }

  function TenTo(digits: nat): nat {
    if digits == 0 then 1 else 10 * TenTo(digits - 1)
  }

  /** A number is written with the digits it had, or with as many as it needs. */
  lemma {:induction false} PaddedIs(number: nat, width: nat)
    requires width > 0
    ensures number < TenTo(width) ==> Padded(number, width) == width
    ensures Padded(number, width) >= width && number < TenTo(Padded(number, width))
  {
    DigitsAreCounted(number, width);
    DigitsAreCounted(number, DigitCount(number));
  }

  /** An ADR citation is moved at whatever width it was written; another kind's only at the
      four digits a citation has; plain text and unmoved numbers never. */
  lemma {:induction false} WhichCitationsMove(p: Piece, moves: Moves)
    ensures RenamePiece(p, moves) != p ==> p.Cite? && Moved(moves.Get(p.kind), p.number)
    ensures p.Cite? && Moved(moves.Get(p.kind), p.number) && (p.kind == Adr || (p.width == 4 && p.number <= 9999)) ==>
      var to := Target(moves.Get(p.kind), p.number);
      RenamePiece(p, moves) == Cite(p.kind, to, Padded(to, p.width))
    ensures p.Cite? && p.kind != Adr && p.width != 4 && p.number <= 9999 ==> RenamePiece(p, moves) == p
  {
    if p.Cite? {
      assert TenTo(4) == 10 * TenTo(3) && TenTo(3) == 10 * TenTo(2) && TenTo(2) == 10 * TenTo(1);
      PaddedIs(p.number, 4);
    }
  }

  // ---- the lines an item added

  /** The branch line is main's while main's copy still has one unclaimed. */
  predicate Added(main: seq<Line>, head: seq<Line>, i: nat)
    requires i < |head|
  {
    multiset(head[..i])[head[i]] >= multiset(main)[head[i]]
  }

  /** added_marks, counting main's lines down. */
  method AddedMarks(main: seq<Line>, head: seq<Line>) returns (marks: seq<bool>)
    ensures |marks| == |head| && forall i :: 0 <= i < |head| ==> marks[i] == Added(main, head, i)
  {
    var remaining := multiset(main);
    marks := [];
    for n := 0 to |head|
      invariant |marks| == n && forall i :: 0 <= i < n ==> marks[i] == Added(main, head, i)
      invariant forall line ::
        remaining[line] == if multiset(main)[line] > multiset(head[..n])[line]
                           then multiset(main)[line] - multiset(head[..n])[line] else 0
    {
      assert head[..n + 1] == head[..n] + [head[n]];
      marks := marks + [remaining[head[n]] == 0];
      if remaining[head[n]] > 0 {
        remaining := remaining[head[n] := remaining[head[n]] - 1];
      }
    }
  }

  /** Of equal lines the earlier ones pass for main's: after an added one every copy is added. */
  lemma AddedFromThere(main: seq<Line>, head: seq<Line>, i: nat, j: nat)
    requires i < j < |head| && head[i] == head[j] && Added(main, head, i)
    ensures Added(main, head, j)
  {
    assert head[..j] == head[..i] + head[i..j];
  }

  function Least(a: nat, b: nat): nat {
    if a < b then a else b
  }

  function Unmarked(main: seq<Line>, head: seq<Line>, line: Line, n: nat): nat
    requires n <= |head|
  {
    if n == 0 then 0
    else Unmarked(main, head, line, n - 1) + if head[n - 1] == line && !Added(main, head, n - 1) then 1 else 0
  }

  /** Exactly as many copies of a line pass for main's as main and the branch share. */
  lemma {:induction false} MainKeepsItsShare(main: seq<Line>, head: seq<Line>, line: Line, n: nat)
    requires n <= |head|
    ensures Unmarked(main, head, line, n) == Least(multiset(main)[line], multiset(head[..n])[line])
  {
    if n > 0 {
      MainKeepsItsShare(main, head, line, n - 1);
      assert head[..n] == head[..n - 1] + [head[n - 1]];
    }
  }
}
