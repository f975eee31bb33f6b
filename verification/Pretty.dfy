/** The JSON layout printer (tools/factory/cli.py, _pretty): a value laid out as
    prettier leaves it. A text is modelled by how it is put together, from tokens
    and white space; `Text` is the string itself. The layout keeps the value's
    tokens, and a line over the width carries at most one scalar. */
module Pretty {
  import opened Rows
  import opened Fill

  /** A JSON value; a scalar or a key is given by its dumped text. */
  datatype Json =
    | Scalar(text: string, number: bool)
    | Arr(items: seq<Json>)
    | Obj(members: seq<Member>)
  datatype Member = Member(key: string, value: Json)

  /** A text under construction: `Cat` is string concatenation. */
  datatype Doc =
    | Empty
    | Token(text: string, scalar: bool)
    | Blank(n: nat)
    | Break
    | Cat(left: Doc, right: Doc)
    | Three(a: Doc, b: Doc, c: Doc)

  function Text(d: Doc): string {
    match d
    case Empty => ""
    case Token(text, _) => text
    case Blank(n) => Spaces(n)
    case Break => "\n"
    case Cat(a, b) => Text(a) + Text(b)
    case Three(a, b, c) => Text(a) + Text(b) + Text(c)
  }

  /** The characters a text takes. */
  function Width(d: Doc): (n: nat)
    ensures n == |Text(d)|
  {
    match d
    case Empty => 0
    case Token(text, _) => |text|
    case Blank(n) => n
    case Break => 1
    case Cat(a, b) => Width(a) + Width(b)
    case Three(a, b, c) => Width(a) + Width(b) + Width(c)
  }

  function Mark(text: string): Doc {
    Token(text, false)
  }

  function Comma(more: bool): Doc {
    if more then Mark(",") else Empty
  }

  // ---- the one-line form

  /** The array's first `n` items on one line, or None when one holds a non-empty object. */
  function FlatItems(v: Json, n: nat): Option<Doc>
    requires v.Arr? && n <= |v.items|
    decreases v, 0, n
  {
    if n == 0 then Some(Empty)
    else
      var before, item := FlatItems(v, n - 1), Flat(v.items[n - 1]);
      if before.None? || item.None? then None
      else Some(Three(before.value, if n > 1 then Cat(Mark(","), Blank(1)) else Empty, item.value))
  }

  function Flat(v: Json): Option<Doc>
    decreases v, 1, 0
  {
    match v
    case Scalar(text, _) => Some(Token(text, true))
    case Obj(members) => if members == [] then Some(Cat(Mark("{"), Mark("}"))) else None
    case Arr(items) =>
      var inside := FlatItems(v, |items|);
      if inside.None? then None else Some(Three(Mark("["), inside.value, Mark("]")))
  }

  /** Two or more items, all arrays (or all objects), each holding more than one entry. */
  predicate MustBreak(items: seq<Json>) {
    && |items| > 1
    && ((forall i :: 0 <= i < |items| ==> items[i].Arr? && |items[i].items| > 1)
        || (forall i :: 0 <= i < |items| ==> items[i].Obj? && |items[i].members| > 1))
  }

  /** The array goes on one line: it has a one-line form, and that fits with what follows. */
  predicate FitsFlat(v: Json, column: nat, tail: bool)
    requires v.Arr?
  {
    && Flat(v).Some?
    && !MustBreak(v.items)
    && column + Width(Flat(v).value) + Width(Comma(tail)) <= WIDTH
  }

  predicate AllNumbers(items: seq<Json>) {
    forall i :: 0 <= i < |items| ==> items[i].Scalar? && items[i].number
  }

  // ---- filled numbers

  /** Each number with the comma after it, none after the last. */
  function Words(items: seq<Json>): seq<Doc>
    requires AllNumbers(items)
  {
    seq(|items|, i requires 0 <= i < |items| => Cat(Token(items[i].text, true), Comma(i + 1 < |items|)))
  }

  function FillLine(line: seq<Doc>, pad: nat): Doc {
    if line == [] then Blank(pad)
    else Three(FillLine(Init(line), pad), if |line| > 1 then Blank(1) else Empty, Last(line))
  }

  function FillDoc(lines: seq<seq<Doc>>, pad: nat): Doc {
    if lines == [] then Empty
    else Three(FillDoc(Init(lines), pad), if |lines| > 1 then Break else Empty, FillLine(Last(lines), pad))
  }

  // ---- the layout

  /** One more line: the break after what stands before, the line's head, its value and comma. */
  function Line(before: Doc, broken: bool, head: Doc, value: Doc, more: bool): Doc {
    Three(Cat(before, if broken then Break else Empty), head, Cat(value, Comma(more)))
  }

  function MemberHead(m: Member, indent: nat): Doc {
    Three(Blank(indent + 2), Mark(m.key), Cat(Mark(":"), Blank(1)))
  }

  /** The first `n` items, one a line. */
  function ItemLines(v: Json, n: nat, indent: nat): Doc
    requires v.Arr? && n <= |v.items|
    decreases v, 0, n
  {
    if n == 0 then Empty
    else
      Line(ItemLines(v, n - 1, indent), n > 1, Blank(indent + 2),
           Pretty(v.items[n - 1], indent + 2, indent + 2, n < |v.items|), n < |v.items|)
  }

  /** The first `n` members, one a line. */
  function MemberLines(v: Json, n: nat, indent: nat): Doc
    requires v.Obj? && n <= |v.members|
    decreases v, 0, n
  {
    if n == 0 then Empty
    else
      var m := v.members[n - 1];
      Line(MemberLines(v, n - 1, indent), n > 1, MemberHead(m, indent),
           Pretty(m.value, indent + 2, indent + 2 + |m.key| + 2, n < |v.members|), n < |v.members|)
  }

  /** Lines between brackets, each bracket on a line of its own but the first. */
  function Broken(open: string, inside: Doc, indent: nat, close: string): Doc {
    Three(Cat(Mark(open), Break), inside, Three(Break, Blank(indent), Mark(close)))
  }

  /** The value starting at a column, with a comma after it or not. */
  function Pretty(v: Json, indent: nat, column: nat, tail: bool): Doc
    decreases v, 1, 0
  {
    match v
    case Scalar(text, _) => Token(text, true)
    case Obj(members) =>
      if members == [] then Cat(Mark("{"), Mark("}"))
      else Broken("{", MemberLines(v, |members|, indent), indent, "}")
    case Arr(items) =>
      if items == [] then Cat(Mark("["), Mark("]"))
      else if FitsFlat(v, column, tail) then Flat(v).value
      else if |items| > 1 && AllNumbers(items) then
        Broken("[", FillDoc(Greedy(Words(items), indent + 2, Width), indent + 2), indent, "]")
      else Broken("[", ItemLines(v, |items|, indent), indent, "]")
  }

  /** prettier_json: the layout at the margin, and a final newline. */
  function PrettierJson(v: Json): Doc {
    Cat(Pretty(v, 0, 0, false), Break)
  }

  // ---- the tokens of a value

  datatype Tok = Tok(text: string, scalar: bool)

  function CommaTok(more: bool): seq<Tok> {
    if more then [Tok(",", false)] else []
  }

  function CompactItems(v: Json, n: nat): seq<Tok>
    requires v.Arr? && n <= |v.items|
    decreases v, 0, n
  {
    if n == 0 then [] else CompactItems(v, n - 1) + CommaTok(n > 1) + Compact(v.items[n - 1])
  }

  function CompactMembers(v: Json, n: nat): seq<Tok>
    requires v.Obj? && n <= |v.members|
    decreases v, 0, n
  {
    if n == 0 then []
    else
      var m := v.members[n - 1];
      CompactMembers(v, n - 1) + CommaTok(n > 1) + [Tok(m.key, false), Tok(":", false)] + Compact(m.value)
  }

  /** The value with no white space at all. */
  function Compact(v: Json): seq<Tok>
    decreases v, 1, 0
  {
    match v
    case Scalar(text, _) => [Tok(text, true)]
    case Obj(members) => [Tok("{", false)] + CompactMembers(v, |members|) + [Tok("}", false)]
    case Arr(items) => [Tok("[", false)] + CompactItems(v, |items|) + [Tok("]", false)]
  }

  /** The tokens of a text, its white space dropped. */
  function Tokens(d: Doc): seq<Tok> {
    match d
    case Empty => []
    case Token(text, scalar) => [Tok(text, scalar)]
    case Blank(_) => []
    case Break => []
    case Cat(a, b) => Tokens(a) + Tokens(b)
    case Three(a, b, c) => Tokens(a) + Tokens(b) + Tokens(c)
  }

  lemma {:induction false} FlatItemsKeep(v: Json, n: nat)
    requires v.Arr? && n <= |v.items| && FlatItems(v, n).Some?
    ensures Tokens(FlatItems(v, n).value) == CompactItems(v, n)
    decreases v, 0, n
  {
    if n > 0 {
      FlatItemsKeep(v, n - 1);
      FlatKeeps(v.items[n - 1]);
    }
  }

  lemma {:induction false} FlatKeeps(v: Json)
    requires Flat(v).Some?
    ensures Tokens(Flat(v).value) == Compact(v)
    decreases v, 1, 0
  {
    if v.Arr? { FlatItemsKeep(v, |v.items|); }
  }

  // ---- filled numbers keep their tokens

  function Joined(words: seq<Doc>): seq<Tok> {
    if words == [] then [] else Joined(Init(words)) + Tokens(Last(words))
  }

  lemma {:induction false} JoinedAppend(a: seq<Doc>, b: seq<Doc>)
    ensures Joined(a + b) == Joined(a) + Joined(b)
  {
    if b == [] {
      assert a + b == a;
    } else {
      assert Init(a + b) == a + Init(b) && Last(a + b) == Last(b);
      JoinedAppend(a, Init(b));
      Joins(Joined(a), Joined(Init(b)), Tokens(Last(b)));
    }
  }

  lemma {:induction false} FillLineKeeps(line: seq<Doc>, pad: nat)
    ensures Tokens(FillLine(line, pad)) == Joined(line)
  {
    if line != [] { FillLineKeeps(Init(line), pad); }
  }

  lemma {:induction false} FillKeeps(lines: seq<seq<Doc>>, pad: nat)
    ensures Tokens(FillDoc(lines, pad)) == Joined(Concat(lines))
  {
    if lines != [] {
      FillKeeps(Init(lines), pad);
      FillLineKeeps(Last(lines), pad);
      JoinedAppend(Concat(Init(lines)), Last(lines));
    }
  }

  /** The words of an array of numbers, joined, are its items with commas between. */
  lemma {:induction false} WordsAreItems(v: Json, n: nat)
    requires v.Arr? && AllNumbers(v.items) && n <= |v.items|
    ensures Joined(Words(v.items)[..n]) == CompactItems(v, n) + CommaTok(0 < n < |v.items|)
  {
    if n > 0 {
      WordsAreItems(v, n - 1);
      var words := Words(v.items);
      assert Init(words[..n]) == words[..n - 1] && Last(words[..n]) == words[n - 1];
      CommaTokens(n < |v.items|);
      assert Tokens(words[n - 1]) == Tokens(words[n - 1].left) + Tokens(words[n - 1].right);
    }
  }

  lemma {:induction false} WordsAreAll(v: Json)
    requires v.Arr? && AllNumbers(v.items)
    ensures Joined(Words(v.items)) == CompactItems(v, |v.items|)
  {
    WordsAreItems(v, |v.items|);
    assert Words(v.items)[..|v.items|] == Words(v.items);
  }

  // ---- the layout keeps its tokens

  lemma Joins<T>(a: seq<T>, b: seq<T>, c: seq<T>)
    ensures a + (b + c) == (a + b) + c
  {
  }

  lemma CommaTokens(more: bool)
    ensures Tokens(Comma(more)) == CommaTok(more)
  {
  }

  lemma {:induction false} LineKeeps(before: Doc, broken: bool, head: Doc, value: Doc, more: bool)
    ensures Tokens(Line(before, broken, head, value, more))
         == Tokens(before) + Tokens(head) + (Tokens(value) + CommaTok(more))
  {
    CommaTokens(more);
    assert Tokens(Cat(before, if broken then Break else Empty)) == Tokens(before) + [] == Tokens(before);
    assert Tokens(Cat(value, Comma(more))) == Tokens(value) + CommaTok(more);
  }

  lemma HeadKeeps(m: Member, indent: nat)
    ensures Tokens(MemberHead(m, indent)) == [Tok(m.key, false), Tok(":", false)]
  {
    assert Tokens(Cat(Mark(":"), Blank(1))) == [Tok(":", false)] + [];
    assert Tokens(Mark(m.key)) == [Tok(m.key, false)];
  }

  lemma {:induction false} ItemLinesKeep(v: Json, n: nat, indent: nat)
    requires v.Arr? && n <= |v.items|
    ensures Tokens(ItemLines(v, n, indent)) == CompactItems(v, n) + CommaTok(0 < n < |v.items|)
    decreases v, 0, n
  {
    if n > 0 {
      var item := Pretty(v.items[n - 1], indent + 2, indent + 2, n < |v.items|);
      ItemLinesKeep(v, n - 1, indent);
      PrettyKeeps(v.items[n - 1], indent + 2, indent + 2, n < |v.items|);
      LineKeeps(ItemLines(v, n - 1, indent), n > 1, Blank(indent + 2), item, n < |v.items|);
      Joins(CompactItems(v, n - 1) + CommaTok(n > 1), Compact(v.items[n - 1]), CommaTok(n < |v.items|));
    }
  }

  lemma {:induction false} MemberLineKeeps(before: Doc, broken: bool, m: Member, indent: nat, value: Doc,
                                           more: bool, toks: seq<Tok>)
    requires Tokens(before) == toks && Tokens(value) == Compact(m.value)
    ensures Tokens(Line(before, broken, MemberHead(m, indent), value, more))
         == toks + [Tok(m.key, false), Tok(":", false)] + Compact(m.value) + CommaTok(more)
  {
    HeadKeeps(m, indent);
    LineKeeps(before, broken, MemberHead(m, indent), value, more);
    Joins(toks + [Tok(m.key, false), Tok(":", false)], Compact(m.value), CommaTok(more));
  }

  lemma {:induction false} MemberLinesKeep(v: Json, n: nat, indent: nat)
    requires v.Obj? && n <= |v.members|
    ensures Tokens(MemberLines(v, n, indent)) == CompactMembers(v, n) + CommaTok(0 < n < |v.members|)
    decreases v, 0, n
  {
    if n > 0 {
      var m := v.members[n - 1];
      var value := Pretty(m.value, indent + 2, indent + 2 + |m.key| + 2, n < |v.members|);
      var before := MemberLines(v, n - 1, indent);
      MemberLinesKeep(v, n - 1, indent);
      PrettyKeeps(m.value, indent + 2, indent + 2 + |m.key| + 2, n < |v.members|);
      MemberLineKeeps(before, n > 1, m, indent, value, n < |v.members|, CompactMembers(v, n - 1) + CommaTok(n > 1));
    }
  }

  lemma {:induction false} BrokenKeeps(open: string, inside: Doc, indent: nat, close: string)
    ensures Tokens(Broken(open, inside, indent, close)) == [Tok(open, false)] + Tokens(inside) + [Tok(close, false)]
  {
    assert Tokens(Cat(Mark(open), Break)) == [Tok(open, false)] + [];
    assert Tokens(Three(Break, Blank(indent), Mark(close))) == [] + [] + [Tok(close, false)];
  }

  lemma {:induction false} FilledKeeps(v: Json, pad: nat)
    requires v.Arr? && AllNumbers(v.items)
    ensures Tokens(FillDoc(Greedy(Words(v.items), pad, Width), pad)) == CompactItems(v, |v.items|)
  {
    var words := Words(v.items);
    var lines := Greedy(words, pad, Width);
    assert Concat(lines) == words by { GreedyIsSplit(words, pad, Width); }
    FillKeeps(lines, pad);
    WordsAreAll(v);
  }

  /** The layout of any value, its insignificant white space removed, is the
      value's compact token sequence. */
  lemma {:induction false} PrettyKeeps(v: Json, indent: nat, column: nat, tail: bool)
    ensures Tokens(Pretty(v, indent, column, tail)) == Compact(v)
    decreases v, 2, 0
  {
    match v
    case Scalar(_, _) =>
    case Obj(members) =>
      MemberLinesKeep(v, |members|, indent);
      BrokenKeeps("{", MemberLines(v, |members|, indent), indent, "}");
    case Arr(items) => ArrayKeeps(v, indent, column, tail);
  }

  lemma {:induction false} ArrayKeeps(v: Json, indent: nat, column: nat, tail: bool)
    requires v.Arr?
    ensures Tokens(Pretty(v, indent, column, tail)) == Compact(v)
    decreases v, 1, 0
  {
    var items := v.items;
    if items == [] {
      assert CompactItems(v, 0) == [];
    } else if FitsFlat(v, column, tail) {
      FlatKeeps(v);
    } else if |items| > 1 && AllNumbers(items) {
      FilledKeeps(v, indent + 2);
      BrokenKeeps("[", FillDoc(Greedy(Words(items), indent + 2, Width), indent + 2), indent, "]");
    } else {
      ItemLinesKeep(v, |items|, indent);
      BrokenKeeps("[", ItemLines(v, |items|, indent), indent, "]");
    }
  }

  // ---- the width of its lines

  /** A line so far: its columns and the scalars on it. */
  datatype Cursor = Cursor(column: nat, scalars: nat)

  /** The line the text ends on, starting from `at`. */
  function After(d: Doc, at: Cursor): Cursor {
    match d
    case Empty => at
    case Token(text, scalar) => Cursor(at.column + |text|, if scalar then at.scalars + 1 else at.scalars)
    case Blank(n) => at.(column := at.column + n)
    case Break => Cursor(0, 0)
    case Cat(a, b) => After(b, After(a, at))
    case Three(a, b, c) => After(c, After(b, After(a, at)))
  }

  predicate Allowed(at: Cursor) {
    at.column <= WIDTH || at.scalars <= 1
  }

  /** Every line the text completes is within the width, or carries at most one scalar. */
  predicate LinesAllowed(d: Doc, at: Cursor) {
    match d
    case Break => Allowed(at)
    case Cat(a, b) => LinesAllowed(a, at) && LinesAllowed(b, After(a, at))
    case Three(a, b, c) =>
      LinesAllowed(a, at) && LinesAllowed(b, After(a, at)) && LinesAllowed(c, After(b, After(a, at)))
    case _ => true
  }

  /** A one-line text completes no line. */
  predicate OneLine(d: Doc) {
    match d
    case Break => false
    case Cat(a, b) => OneLine(a) && OneLine(b)
    case Three(a, b, c) => OneLine(a) && OneLine(b) && OneLine(c)
    case _ => true
  }

  lemma {:induction false} OneLineRuns(d: Doc, at: Cursor)
    requires OneLine(d)
    ensures LinesAllowed(d, at) && After(d, at).column == at.column + Width(d) && After(d, at).scalars >= at.scalars
  {
    match d
    case Cat(a, b) =>
      OneLineRuns(a, at);
      OneLineRuns(b, After(a, at));
    case Three(a, b, c) =>
      OneLineRuns(a, at);
      OneLineRuns(b, After(a, at));
      OneLineRuns(c, After(b, After(a, at)));
    case _ =>
  }

  lemma {:induction false} FlatIsOneLine(v: Json)
    requires Flat(v).Some?
    ensures OneLine(Flat(v).value)
    decreases v, 1, 0
  {
    if v.Arr? { FlatItemsAreOneLine(v, |v.items|); }
  }

  lemma {:induction false} FlatItemsAreOneLine(v: Json, n: nat)
    requires v.Arr? && n <= |v.items| && FlatItems(v, n).Some?
    ensures OneLine(FlatItems(v, n).value)
    decreases v, 0, n
  {
    if n > 0 {
      FlatItemsAreOneLine(v, n - 1);
      FlatIsOneLine(v.items[n - 1]);
    }
  }

  /** What may follow a value on its line: a comma, or nothing. */
  predicate EndsWell(d: Doc, at: Cursor, tail: bool) {
    && LinesAllowed(d, at)
    && (After(d, at).scalars <= 1 || After(d, at).column + Width(Comma(tail)) <= WIDTH)
  }

  predicate NumberWord(w: Doc) {
    w.Cat? && w.left.Token? && w.left.scalar && (w.right == Comma(false) || w.right == Comma(true))
  }

  lemma WordIs(items: seq<Json>, w: Doc) returns (i: nat)
    requires AllNumbers(items) && w in Words(items)
    ensures NumberWord(w) && i < |items| && w.left.text == items[i].text
  {
    i :| i < |Words(items)| && Words(items)[i] == w;
    assert w.right == Comma(i + 1 < |items|);
  }

  lemma {:induction false} NumberRuns(w: Doc, at: Cursor)
    requires NumberWord(w)
    ensures OneLine(w) && After(w, at) == Cursor(at.column + Width(w), at.scalars + 1)
  {
    assert After(w.left, at) == Cursor(at.column + Width(w.left), at.scalars + 1);
  }

  lemma {:induction false} FillLineRuns(line: seq<Doc>, pad: nat)
    requires forall w :: w in line ==> NumberWord(w)
    ensures OneLine(FillLine(line, pad))
    ensures After(FillLine(line, pad), Cursor(0, 0)) == Cursor(LineWidth(line, pad, Width), |line|)
  {
    if line != [] {
      assert Last(line) in line && forall w :: w in Init(line) ==> w in line;
      FillLineRuns(Init(line), pad);
      var before, gap := FillLine(Init(line), pad), if |line| > 1 then Blank(1) else Empty;
      var at := After(gap, After(before, Cursor(0, 0)));
      assert at == Cursor(LineWidth(Init(line), pad, Width) + (if |line| > 1 then 1 else 0), |line| - 1);
      NumberRuns(Last(line), at);
    }
  }

  /** Filled lines: each is a fitting line, or a single number. */
  lemma {:induction false} FillRuns(lines: seq<seq<Doc>>, pad: nat)
    requires forall line :: line in lines ==> LineAllowed(line, pad, Width) && forall w :: w in line ==> NumberWord(w)
    ensures LinesAllowed(FillDoc(lines, pad), Cursor(0, 0))
    ensures Allowed(After(FillDoc(lines, pad), Cursor(0, 0)))
  {
    if lines != [] {
      assert Last(lines) in lines && forall line :: line in Init(lines) ==> line in lines;
      FillRuns(Init(lines), pad);
      FillLineRuns(Last(lines), pad);
      OneLineRuns(FillLine(Last(lines), pad), Cursor(0, 0));
    }
  }

  lemma {:induction false} ConcatHolds<W>(lines: seq<seq<W>>, line: seq<W>, w: W)
    requires line in lines && w in line
    ensures w in Concat(lines)
  {
    if line != Last(lines) {
      assert line in Init(lines);
      ConcatHolds(Init(lines), line, w);
    }
  }

  lemma {:induction false} FilledRuns(items: seq<Json>, pad: nat)
    requires AllNumbers(items)
    ensures var d := FillDoc(Greedy(Words(items), pad, Width), pad);
      LinesAllowed(d, Cursor(0, 0)) && Allowed(After(d, Cursor(0, 0)))
  {
    var lines := Greedy(Words(items), pad, Width);
    GreedyIsSplit(Words(items), pad, Width);
    forall line, w | line in lines && w in line
      ensures NumberWord(w)
    {
      ConcatHolds(lines, line, w);
      var _ := WordIs(items, w);
    }
    FillRuns(lines, pad);
  }

  /** A line of the layout, its value laid out from where the head ends. */
  lemma {:induction false} LineRuns(before: Doc, broken: bool, head: Doc, value: Doc, more: bool)
    requires LinesAllowed(before, Cursor(0, 0)) && Allowed(After(before, Cursor(0, 0)))
    requires broken || before == Empty
    requires LinesAllowed(head, Cursor(0, 0)) && After(head, Cursor(0, 0)).scalars == 0
    requires EndsWell(value, After(head, Cursor(0, 0)), more)
    ensures var d := Line(before, broken, head, value, more);
      LinesAllowed(d, Cursor(0, 0)) && Allowed(After(d, Cursor(0, 0)))
  {
    var start := Cat(before, if broken then Break else Empty);
    assert After(start, Cursor(0, 0)) == Cursor(0, 0) && LinesAllowed(start, Cursor(0, 0));
    var at := After(head, Cursor(0, 0));
    var end := Cat(value, Comma(more));
    assert After(end, at) == After(Comma(more), After(value, at));
    assert LinesAllowed(end, at);
  }

  lemma HeadRuns(m: Member, indent: nat)
    ensures LinesAllowed(MemberHead(m, indent), Cursor(0, 0))
    ensures After(MemberHead(m, indent), Cursor(0, 0)) == Cursor(indent + 2 + |m.key| + 2, 0)
  {
    var at := Cursor(indent + 2 + |m.key|, 0);
    assert After(Mark(m.key), After(Blank(indent + 2), Cursor(0, 0))) == at;
    assert After(Cat(Mark(":"), Blank(1)), at) == Cursor(at.column + 2, 0);
    assert LinesAllowed(Mark(":"), at) && LinesAllowed(Blank(1), After(Mark(":"), at));
    assert LinesAllowed(Cat(Mark(":"), Blank(1)), at);
  }

  lemma {:induction false} ItemLinesRun(v: Json, n: nat, indent: nat)
    requires v.Arr? && n <= |v.items|
    ensures var d := ItemLines(v, n, indent);
      LinesAllowed(d, Cursor(0, 0)) && Allowed(After(d, Cursor(0, 0)))
    decreases v, 0, n
  {
    if n > 0 {
      var item := Pretty(v.items[n - 1], indent + 2, indent + 2, n < |v.items|);
      ItemLinesRun(v, n - 1, indent);
      PrettyRuns(v.items[n - 1], indent + 2, indent + 2, n < |v.items|);
      LineRuns(ItemLines(v, n - 1, indent), n > 1, Blank(indent + 2), item, n < |v.items|);
    }
  }

  lemma {:induction false} MemberLinesRun(v: Json, n: nat, indent: nat)
    requires v.Obj? && n <= |v.members|
    ensures var d := MemberLines(v, n, indent);
      LinesAllowed(d, Cursor(0, 0)) && Allowed(After(d, Cursor(0, 0)))
    decreases v, 0, n
  {
    if n > 0 {
      var m := v.members[n - 1];
      var value := Pretty(m.value, indent + 2, indent + 2 + |m.key| + 2, n < |v.members|);
      MemberLinesRun(v, n - 1, indent);
      HeadRuns(m, indent);
      PrettyRuns(m.value, indent + 2, indent + 2 + |m.key| + 2, n < |v.members|);
      LineRuns(MemberLines(v, n - 1, indent), n > 1, MemberHead(m, indent), value, n < |v.members|);
    }
  }

  lemma {:induction false} BrokenRuns(open: string, inside: Doc, indent: nat, close: string, at: Cursor, tail: bool)
    requires at.scalars == 0
    requires LinesAllowed(inside, Cursor(0, 0)) && Allowed(After(inside, Cursor(0, 0)))
    requires |close| == 1
    ensures EndsWell(Broken(open, inside, indent, close), at, tail)
  {
    var first, last := Cat(Mark(open), Break), Three(Break, Blank(indent), Mark(close));
    var end := After(inside, Cursor(0, 0));
    var start := After(Mark(open), at);
    assert start.scalars == 0;
    assert LinesAllowed(Mark(open), at) && LinesAllowed(Break, start) && After(Break, start) == Cursor(0, 0);
    assert LinesAllowed(first, at) && After(first, at) == Cursor(0, 0);
    assert LinesAllowed(Break, end) && After(Break, end) == Cursor(0, 0);
    assert After(Blank(indent), Cursor(0, 0)) == Cursor(indent, 0);
    assert LinesAllowed(Blank(indent), Cursor(0, 0)) && LinesAllowed(Mark(close), Cursor(indent, 0));
    assert After(Mark(close), Cursor(indent, 0)) == Cursor(indent + 1, 0);
    assert LinesAllowed(last, end) && After(last, end) == Cursor(indent + 1, 0);
  }

  /** A value laid out from its column ends within the width with the comma after
      it, or ends a line of at most one scalar; and so does every line inside it. */
  lemma {:induction false} PrettyRuns(v: Json, indent: nat, column: nat, tail: bool)
    ensures EndsWell(Pretty(v, indent, column, tail), Cursor(column, 0), tail)
    decreases v, 1, 0
  {
    var at := Cursor(column, 0);
    match v
    case Scalar(_, _) =>
    case Obj(members) =>
      MemberLinesRun(v, |members|, indent);
      BrokenRuns("{", MemberLines(v, |members|, indent), indent, "}", at, tail);
    case Arr(items) =>
      if items == [] {
      } else if FitsFlat(v, column, tail) {
        FlatIsOneLine(v);
        OneLineRuns(Flat(v).value, at);
      } else if |items| > 1 && AllNumbers(items) {
        FilledRuns(items, indent + 2);
        BrokenRuns("[", FillDoc(Greedy(Words(items), indent + 2, Width), indent + 2), indent, "]", at, tail);
      } else {
        ItemLinesRun(v, |items|, indent);
        BrokenRuns("[", ItemLines(v, |items|, indent), indent, "]", at, tail);
      }
  }

  /** Any line of the printed text over 80 columns carries at most one scalar. */
  lemma WideLinesHoldOneScalar(v: Json)
    ensures LinesAllowed(PrettierJson(v), Cursor(0, 0))
  {
    PrettyRuns(v, 0, 0, false);
  }

  // ---- the text, character by character

  predicate IsSpace(c: char) {
    c == ' ' || c == '\n' || c == '\t' || c == '\r'
  }

  /** Insignificant white space removed: outside string literals only. */
  function Strip(s: string, inString: bool): string {
    if s == [] then []
    else if inString then
      if s[0] == '\\' && |s| > 1 then s[..2] + Strip(s[2..], true)
      else [s[0]] + Strip(s[1..], s[0] != '\"')
    else if IsSpace(s[0]) then Strip(s[1..], false)
    else [s[0]] + Strip(s[1..], s[0] == '\"')
  }

  /** The body of a string literal: every quote in it is escaped. */
  predicate BodyOk(body: string) {
    body == [] || (if body[0] == '\\' then |body| > 1 && BodyOk(body[2..]) else body[0] != '\"' && BodyOk(body[1..]))
  }

  /** A string literal, or a text with no quote and no white space. */
  predicate Literal(text: string) {
    || (|text| >= 2 && text[0] == '\"' && text[|text| - 1] == '\"' && BodyOk(text[1..|text| - 1]))
    || forall c :: c in text ==> c != '\"' && !IsSpace(c)
  }

  lemma {:induction false} StripBody(body: string, rest: string)
    requires BodyOk(body)
    ensures Strip(body + ['\"'] + rest, true) == body + ['\"'] + Strip(rest, false)
    decreases |body|
  {
    var s := body + ['\"'] + rest;
    if body == [] {
      assert s[1..] == rest;
    } else if body[0] == '\\' {
      assert s[..2] == body[..2] && s[2..] == body[2..] + ['\"'] + rest;
      StripBody(body[2..], rest);
      assert body == body[..2] + body[2..];
    } else {
      assert s[1..] == body[1..] + ['\"'] + rest;
      StripBody(body[1..], rest);
    }
  }

  lemma {:induction false} StripBare(text: string, rest: string)
    requires forall c :: c in text ==> c != '\"' && !IsSpace(c)
    ensures Strip(text + rest, false) == text + Strip(rest, false)
  {
    if text == [] {
      assert text + rest == rest;
    } else {
      assert (text + rest)[1..] == text[1..] + rest;
      assert forall c :: c in text[1..] ==> c in text;
      StripBare(text[1..], rest);
    }
  }

  lemma {:induction false} StripOpen(s: string)
    ensures Strip(['\"'] + s, false) == ['\"'] + Strip(s, true)
  {
    assert (['\"'] + s)[1..] == s;
  }

  lemma {:induction false} StripQuoted(body: string, rest: string)
    requires BodyOk(body)
    ensures Strip(['\"'] + (body + ['\"'] + rest), false) == (['\"'] + body + ['\"']) + Strip(rest, false)
  {
    StripOpen(body + ['\"'] + rest);
    StripBody(body, rest);
    var left := Strip(rest, false);
    assert ['\"'] + (body + ['\"'] + left) == (['\"'] + body + ['\"']) + left;
  }

  lemma {:induction false} StripLiteral(text: string, rest: string)
    requires Literal(text)
    ensures Strip(text + rest, false) == text + Strip(rest, false)
  {
    if forall c :: c in text ==> c != '\"' && !IsSpace(c) {
      StripBare(text, rest);
    } else {
      var body := text[1..|text| - 1];
      assert text == ['\"'] + body + ['\"'];
      assert text + rest == ['\"'] + (body + ['\"'] + rest);
      StripQuoted(body, rest);
    }
  }

  lemma {:induction false} StripSpaces(n: nat, rest: string)
    ensures Strip(Spaces(n) + rest, false) == Strip(rest, false)
  {
    if n == 0 {
      assert Spaces(n) + rest == rest;
    } else {
      assert (Spaces(n) + rest)[1..] == Spaces(n - 1) + rest;
      StripSpaces(n - 1, rest);
    }
  }

  ghost predicate AllHold(toks: seq<Tok>, ok: string -> bool) {
    forall t :: t in toks ==> ok(t.text)
  }

  /** Every scalar and key of the value is such a text. */
  ghost predicate ValueHolds(v: Json, ok: string -> bool) {
    match v
    case Scalar(text, _) => ok(text)
    case Arr(items) => forall i :: 0 <= i < |items| ==> ValueHolds(items[i], ok)
    case Obj(members) => forall i :: 0 <= i < |members| ==> ok(members[i].key) && ValueHolds(members[i].value, ok)
  }

  /** And so is every token of its compact form, where the marks are. */
  lemma {:induction false} CompactHolds(v: Json, ok: string -> bool)
    requires ValueHolds(v, ok)
    requires ok("{") && ok("}") && ok("[") && ok("]") && ok(",") && ok(":")
    ensures AllHold(Compact(v), ok)
    decreases v, 1, 0
  {
    match v
    case Scalar(_, _) =>
    case Arr(items) => CompactItemsHold(v, |items|, ok);
    case Obj(members) => CompactMembersHold(v, |members|, ok);
  }

  lemma {:induction false} CompactItemsHold(v: Json, n: nat, ok: string -> bool)
    requires v.Arr? && n <= |v.items| && ValueHolds(v, ok)
    requires ok("{") && ok("}") && ok("[") && ok("]") && ok(",") && ok(":")
    ensures AllHold(CompactItems(v, n), ok)
    decreases v, 0, n
  {
    if n > 0 {
      CompactItemsHold(v, n - 1, ok);
      CompactHolds(v.items[n - 1], ok);
    }
  }

  lemma {:induction false} CompactMembersHold(v: Json, n: nat, ok: string -> bool)
    requires v.Obj? && n <= |v.members| && ValueHolds(v, ok)
    requires ok("{") && ok("}") && ok("[") && ok("]") && ok(",") && ok(":")
    ensures AllHold(CompactMembers(v, n), ok)
    decreases v, 0, n
  {
    if n > 0 {
      CompactMembersHold(v, n - 1, ok);
      CompactHolds(v.members[n - 1].value, ok);
    }
  }

  function TokText(toks: seq<Tok>): string {
    if toks == [] then "" else TokText(Init(toks)) + Last(toks).text
  }

  lemma {:induction false} TokTextAppend(a: seq<Tok>, b: seq<Tok>)
    ensures TokText(a + b) == TokText(a) + TokText(b)
  {
    if b == [] {
      assert a + b == a;
    } else {
      assert Init(a + b) == a + Init(b) && Last(a + b) == Last(b);
      TokTextAppend(a, Init(b));
      Joins(TokText(a), TokText(Init(b)), Last(b).text);
    }
  }

  lemma {:induction false} StripJoin(a: string, b: string, rest: string, left: seq<Tok>, right: seq<Tok>)
    requires Strip(a + (b + rest), false) == TokText(left) + Strip(b + rest, false)
    requires Strip(b + rest, false) == TokText(right) + Strip(rest, false)
    ensures Strip(a + b + rest, false) == TokText(left + right) + Strip(rest, false)
  {
    assert a + b + rest == a + (b + rest);
    TokTextAppend(left, right);
    Joins(TokText(left), TokText(right), Strip(rest, false));
  }

  /** Stripping a text leaves its tokens' texts. */
  lemma {:induction false} StripIsTokens(d: Doc, rest: string)
    requires AllHold(Tokens(d), Literal)
    ensures Strip(Text(d) + rest, false) == TokText(Tokens(d)) + Strip(rest, false)
  {
    match d
    case Empty => assert Text(d) + rest == rest;
    case Token(text, scalar) =>
      assert Tok(text, scalar) in Tokens(d);
      StripLiteral(text, rest);
      assert Init([Tok(text, scalar)]) == [];
    case Blank(n) => StripSpaces(n, rest);
    case Break => assert (Text(d) + rest)[1..] == rest;
    case Cat(a, b) =>
      StripIsTokens(b, rest);
      StripIsTokens(a, Text(b) + rest);
      StripJoin(Text(a), Text(b), rest, Tokens(a), Tokens(b));
    case Three(a, b, c) =>
      StripIsTokens(c, rest);
      StripIsTokens(b, Text(c) + rest);
      StripIsTokens(a, Text(b) + (Text(c) + rest));
      StripJoin(Text(a), Text(b), Text(c) + rest, Tokens(a), Tokens(b));
      StripJoin(Text(a) + Text(b), Text(c), rest, Tokens(a) + Tokens(b), Tokens(c));
  }

  lemma {:induction false} StripWhole(d: Doc)
    requires AllHold(Tokens(d), Literal)
    ensures Strip(Text(Cat(d, Break)), false) == TokText(Tokens(d))
  {
    StripIsTokens(d, "\n");
    assert Strip("\n", false) == "";
    assert Text(Cat(d, Break)) == Text(d) + "\n";
  }

  lemma {:induction false} LiteralsHold(v: Json)
    requires ValueHolds(v, Literal)
    ensures AllHold(Compact(v), Literal)
  {
    forall mark: string | |mark| == 1 && mark[0] in "{}[],:"
      ensures Literal(mark)
    {
    }
    CompactHolds(v, Literal);
  }

  /** Character by character: the printed text with its insignificant white space
      removed is the value's compact text. */
  lemma {:induction false} PrintedTextKeepsValue(v: Json)
    requires ValueHolds(v, Literal)
    ensures Strip(Text(PrettierJson(v)), false) == TokText(Compact(v))
  {
    PrettyKeeps(v, 0, 0, false);
    LiteralsHold(v);
    StripWhole(Pretty(v, 0, 0, false));
  }

  // ---- the printed lines

  /** A printed line: its text and the scalars on it. */
  datatype Printed = Printed(text: string, scalars: nat)

  /** The lines a text completes, starting from an open line. */
  function Lines(d: Doc, at: Printed): seq<Printed> {
    match d
    case Break => [at]
    case Cat(a, b) => Lines(a, at) + Lines(b, OpenLine(a, at))
    case Three(a, b, c) => Lines(a, at) + Lines(b, OpenLine(a, at)) + Lines(c, OpenLine(b, OpenLine(a, at)))
    case _ => []
  }

  /** The line the text leaves open. */
  function OpenLine(d: Doc, at: Printed): Printed {
    match d
    case Empty => at
    case Token(text, scalar) => Printed(at.text + text, if scalar then at.scalars + 1 else at.scalars)
    case Blank(n) => at.(text := at.text + Spaces(n))
    case Break => Printed("", 0)
    case Cat(a, b) => OpenLine(b, OpenLine(a, at))
    case Three(a, b, c) => OpenLine(c, OpenLine(b, OpenLine(a, at)))
  }

  function CursorOf(at: Printed): Cursor {
    Cursor(|at.text|, at.scalars)
  }

  /** A text taken apart at its newlines. */
  function Split(text: string): (lines: seq<string>)
    ensures lines != []
  {
    if text == [] then [""]
    else
      var rest := Split(text[1..]);
      if text[0] == '\n' then [""] + rest else [[text[0]] + rest[0]] + rest[1..]
  }

  function Texts(lines: seq<Printed>): seq<string> {
    seq(|lines|, i requires 0 <= i < |lines| => lines[i].text)
  }

  lemma {:induction false} SplitFirst(line: string, rest: string)
    requires '\n' !in line
    ensures Split(line + "\n" + rest) == [line] + Split(rest)
    ensures Split(line) == [line]
  {
    var s := line + "\n" + rest;
    if line == [] {
      assert s[1..] == rest;
    } else {
      assert s[1..] == line[1..] + "\n" + rest;
      assert forall c :: c in line[1..] ==> c in line;
      SplitFirst(line[1..], rest);
      assert line == [line[0]] + line[1..];
    }
  }

  predicate NoNewline(text: string) {
    '\n' !in text
  }

  /** The lines kept open and closed, taken apart at the text's newlines. */
  lemma {:induction false} LinesAreSplit(d: Doc, at: Printed, rest: string)
    requires AllHold(Tokens(d), NoNewline) && NoNewline(at.text)
    ensures NoNewline(OpenLine(d, at).text)
    ensures Split(at.text + Text(d) + rest) == Texts(Lines(d, at)) + Split(OpenLine(d, at).text + rest)
  {
    match d
    case Empty => assert at.text + Text(d) == at.text;
    case Token(text, scalar) => assert Tok(text, scalar) in Tokens(d);
    case Blank(n) =>
    case Break => SplitFirst(at.text, rest);
      assert "" + rest == rest;
    case Cat(a, b) =>
      LinesAreSplit(a, at, Text(b) + rest);
      LinesAreSplit(b, OpenLine(a, at), rest);
      SplitJoins(at, Lines(a, at), OpenLine(a, at), Lines(b, OpenLine(a, at)), OpenLine(d, at), Text(a), Text(b), rest);
    case Three(a, b, c) =>
      var first, second := OpenLine(a, at), OpenLine(b, OpenLine(a, at));
      LinesAreSplit(a, at, Text(b) + Text(c) + rest);
      LinesAreSplit(b, first, Text(c) + rest);
      LinesAreSplit(c, second, rest);
      assert Text(b) + Text(c) + rest == Text(b) + (Text(c) + rest);
      SplitJoins(at, Lines(a, at), first, Lines(b, first), second, Text(a), Text(b), Text(c) + rest);
      SplitJoins(at, Lines(a, at) + Lines(b, first), second, Lines(c, second), OpenLine(d, at),
                 Text(a) + Text(b), Text(c), rest);
  }

  lemma TextsAppend(a: seq<Printed>, b: seq<Printed>)
    ensures Texts(a + b) == Texts(a) + Texts(b)
  {
  }

  lemma {:induction false} SplitJoins(at: Printed, left: seq<Printed>, mid: Printed, right: seq<Printed>,
                                      end: Printed, a: string, b: string, rest: string)
    requires Split(at.text + a + (b + rest)) == Texts(left) + Split(mid.text + (b + rest))
    requires Split(mid.text + b + rest) == Texts(right) + Split(end.text + rest)
    ensures Split(at.text + (a + b) + rest) == Texts(left + right) + Split(end.text + rest)
  {
    Joins(at.text, a, b);
    Joins(at.text + a, b, rest);
    Joins(mid.text, b, rest);
    TextsAppend(left, right);
    Joins(Texts(left), Texts(right), Split(end.text + rest));
  }

  /** A line of the print: within the width, or of one scalar at most. */
  predicate LineOk(line: Printed) {
    |line.text| <= WIDTH || line.scalars <= 1
  }

  /** The cursor is the open line, and the lines allowed are the lines completed. */
  lemma {:induction false} LinesAreAllowed(d: Doc, at: Printed)
    ensures CursorOf(OpenLine(d, at)) == After(d, CursorOf(at))
    ensures LinesAllowed(d, CursorOf(at)) <==> forall line :: line in Lines(d, at) ==> LineOk(line)
  {
    match d
    case Cat(a, b) =>
      LinesAreAllowed(a, at);
      LinesAreAllowed(b, OpenLine(a, at));
    case Three(a, b, c) =>
      LinesAreAllowed(a, at);
      LinesAreAllowed(b, OpenLine(a, at));
      LinesAreAllowed(c, OpenLine(b, OpenLine(a, at)));
    case Break =>
      assert Lines(d, at) == [at] && (Allowed(CursorOf(at)) <==> LineOk(at));
    case _ =>
      assert Lines(d, at) == [];
  }

  /** The printed text split at its newlines is the printed lines and what follows the
      final newline, nothing; and every line over 80 columns carries at most one scalar. */
  lemma {:induction false} WidePrintedLinesHoldOneScalar(v: Json)
    requires ValueHolds(v, NoNewline)
    ensures Split(Text(PrettierJson(v))) == Texts(Lines(PrettierJson(v), Printed("", 0))) + [""]
    ensures forall line :: line in Lines(PrettierJson(v), Printed("", 0)) ==> |line.text| <= WIDTH || line.scalars <= 1
  {
    var d, at := PrettierJson(v), Printed("", 0);
    PrettyKeeps(v, 0, 0, false);
    CompactHolds(v, NoNewline);
    assert Tokens(d) == Tokens(Pretty(v, 0, 0, false)) + [];
    LinesAreSplit(d, at, "");
    assert at.text + Text(d) + "" == Text(d);
    assert OpenLine(d, at).text + "" == "";
    WideLinesHoldOneScalar(v);
    LinesAreAllowed(d, at);
  }
}
