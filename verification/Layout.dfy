/** The printed text of a JSON value, as its lines are joined: what stands on one
    line, and what each line of a broken value holds (tools/factory/cli.py). */
module Layout {
  import opened Rows
  import opened Fill
  import opened P = Pretty

  function JoinText(parts: seq<string>, sep: string): string {
    if parts == [] then ""
    else if |parts| == 1 then parts[0]
    else JoinText(Init(parts), sep) + sep + Last(parts)
  }

  // ---- on one line

  /** The value holds an object with something in it, at any depth. */
  predicate HoldsObject(v: Json) {
    match v
    case Scalar(_, _) => false
    case Obj(members) => members != []
    case Arr(items) => exists i :: 0 <= i < |items| && HoldsObject(items[i])
  }

  function FlatTexts(v: Json, n: nat): seq<string>
    requires v.Arr? && n <= |v.items|
    decreases v, 0, n
  {
    if n == 0 then [] else FlatTexts(v, n - 1) + [FlatText(v.items[n - 1])]
  }

  /** The value written on one line: an array's items joined by a comma and a space. */
  function FlatText(v: Json): string
    decreases v, 1, 0
  {
    match v
    case Scalar(text, _) => text
    case Obj(_) => "{}"
    case Arr(items) => "[" + JoinText(FlatTexts(v, |items|), ", ") + "]"
  }

  lemma {:induction false} FlatTextsSize(v: Json, n: nat)
    requires v.Arr? && n <= |v.items|
    ensures |FlatTexts(v, n)| == n
    decreases n
  {
    if n > 0 { FlatTextsSize(v, n - 1); }
  }

  lemma {:induction false} JoinSnoc(parts: seq<string>, part: string, sep: string)
    ensures JoinText(parts + [part], sep) == JoinText(parts, sep) + (if parts != [] then sep else "") + part
  {
    assert Init(parts + [part]) == parts;
    if parts == [] { assert parts + [part] == [part]; }
  }

  lemma {:induction false} FlatItemsAre(v: Json, n: nat)
    requires v.Arr? && n <= |v.items|
    ensures FlatItems(v, n).Some? <==> forall i :: 0 <= i < n ==> !HoldsObject(v.items[i])
    ensures FlatItems(v, n).Some? ==> Text(FlatItems(v, n).value) == JoinText(FlatTexts(v, n), ", ")
    decreases v, 0, n
  {
    if n > 0 {
      FlatItemsAre(v, n - 1);
      FlatIs(v.items[n - 1]);
      FlatTextsSize(v, n - 1);
      JoinSnoc(FlatTexts(v, n - 1), FlatText(v.items[n - 1]), ", ");
      if FlatItems(v, n).Some? {
        FlatItemText(FlatItems(v, n - 1).value, n > 1, Flat(v.items[n - 1]).value);
      }
    }
  }

  lemma FlatItemText(before: Doc, more: bool, item: Doc)
    ensures Text(Three(before, if more then Cat(Mark(","), Blank(1)) else Empty, item))
         == Text(before) + (if more then ", " else "") + Text(item)
  {
    assert Spaces(1) == " " && Text(Cat(Mark(","), Blank(1))) == ", ";
  }

  /** A value has a one-line form exactly when it holds no object with something in it. */
  lemma {:induction false} FlatIs(v: Json)
    ensures Flat(v).Some? <==> !HoldsObject(v)
    ensures Flat(v).Some? ==> Text(Flat(v).value) == FlatText(v)
    decreases v, 1, 0
  {
    if v.Arr? { FlatItemsAre(v, |v.items|); }
  }

  /** Two or more items that are all arrays, or all objects, of two or more entries. */
  predicate AllLong(items: seq<Json>) {
    && 2 <= |items|
    && (|| (forall item :: item in items ==> item.Arr? && 2 <= |item.items|)
        || (forall item :: item in items ==> item.Obj? && 2 <= |item.members|))
  }

  /** A value is printed on one line exactly when it is a scalar, or empty, or an array with
      no full object in it, whose items are not all long, and that fits with what follows. */
  predicate OnOneLine(v: Json, column: nat, tail: bool) {
    match v
    case Scalar(_, _) => true
    case Obj(members) => members == []
    case Arr(items) =>
      items == [] || (!HoldsObject(v) && !AllLong(items) && column + |FlatText(v)| + (if tail then 1 else 0) <= 80)
  }

  lemma AllLongIff(items: seq<Json>)
    ensures MustBreak(items) <==> AllLong(items)
  {
    assert forall i :: 0 <= i < |items| ==> items[i] in items;
  }

  lemma {:induction false} OneLineIff(v: Json, indent: nat, column: nat, tail: bool)
    ensures OneLine(Pretty(v, indent, column, tail)) <==> OnOneLine(v, column, tail)
    ensures OnOneLine(v, column, tail) ==> Text(Pretty(v, indent, column, tail)) == FlatText(v)
  {
    if v.Arr? && v.items != [] {
      FlatIs(v);
      AllLongIff(v.items);
      if Flat(v).Some? { FlatIsOneLine(v); }
    } else if v.Arr? {
      assert FlatTexts(v, 0) == [];
    }
  }

  lemma {:induction false} FlatItemsAreOneLine(v: Json, n: nat)
    requires v.Arr? && n <= |v.items| && FlatItems(v, n).Some?
    ensures OneLine(FlatItems(v, n).value)
    decreases v, 0, n
  {
    if n > 0 {
      FlatItemsAreOneLine(v, n - 1);
      FlatIsOneLine(v.items[n - 1]);
    }
  }

  lemma {:induction false} FlatIsOneLine(v: Json)
    requires Flat(v).Some?
    ensures OneLine(Flat(v).value)
    decreases v, 1, 0
  {
    if v.Arr? { FlatItemsAreOneLine(v, |v.items|); }
  }

  // ---- a broken object

  /** An entry's line: two columns in, its key, and its value laid out from there. */
  function MemberText(v: Json, n: nat, indent: nat): string
    requires v.Obj? && n < |v.members|
  {
    var m, last := v.members[n], n + 1 == |v.members|;
    Spaces(indent + 2) + m.key + ": "
    + Text(Pretty(m.value, indent + 2, indent + 2 + |m.key| + 2, !last)) + if last then "" else ","
  }

  function MemberTexts(v: Json, n: nat, indent: nat): seq<string>
    requires v.Obj? && n <= |v.members|
  {
    seq(n, i requires 0 <= i < n => MemberText(v, i, indent))
  }

  lemma {:induction false} MemberLinesAre(v: Json, n: nat, indent: nat)
    requires v.Obj? && n <= |v.members|
    ensures Text(MemberLines(v, n, indent)) == JoinText(MemberTexts(v, n, indent), "\n")
    decreases n
  {
    if n > 0 {
      MemberLinesAre(v, n - 1, indent);
      MemberLineIs(v, n, indent);
      assert MemberTexts(v, n, indent) == MemberTexts(v, n - 1, indent) + [MemberText(v, n - 1, indent)];
      JoinSnoc(MemberTexts(v, n - 1, indent), MemberText(v, n - 1, indent), "\n");
    }
  }

  lemma {:induction false} MemberLineIs(v: Json, n: nat, indent: nat)
    requires v.Obj? && 0 < n <= |v.members|
    ensures Text(MemberLines(v, n, indent))
         == Text(MemberLines(v, n - 1, indent)) + (if n > 1 then "\n" else "") + MemberText(v, n - 1, indent)
  {
    var m := v.members[n - 1];
    var value := Pretty(m.value, indent + 2, indent + 2 + |m.key| + 2, n < |v.members|);
    LineText(MemberLines(v, n - 1, indent), n > 1, MemberHead(m, indent), value, n < |v.members|);
    HeadText(m, indent);
  }

  lemma {:induction false} LineText(before: Doc, broken: bool, head: Doc, value: Doc, more: bool)
    ensures Text(Line(before, broken, head, value, more))
         == Text(before) + (if broken then "\n" else "") + (Text(head) + Text(value) + if more then "," else "")
  {
    var start, end := Cat(before, if broken then Break else Empty), Cat(value, Comma(more));
    var newline, comma := if broken then "\n" else "", if more then "," else "";
    assert Text(start) == Text(before) + newline;
    assert Text(end) == Text(value) + comma;
    Regroup(Text(before), newline, Text(head), Text(value), comma);
  }

  lemma Regroup(a: string, b: string, c: string, d: string, e: string)
    ensures (a + b) + c + (d + e) == a + b + (c + d + e)
    ensures a + b + (c + d + e) == a + b + c + (d + e)
    ensures (a + b) + c + (d + e) == a + b + c + d + e
  {
  }

  lemma HeadText(m: Member, indent: nat)
    ensures Text(MemberHead(m, indent)) == Spaces(indent + 2) + m.key + ": "
  {
    assert Spaces(1) == " " && Text(Cat(Mark(":"), Blank(1))) == ": ";
  }

  /** An object with something in it is always broken, one entry a line, and closed at its
      own indent. */
  lemma {:induction false} ObjectText(v: Json, indent: nat, column: nat, tail: bool)
    requires v.Obj? && v.members != []
    ensures Text(Pretty(v, indent, column, tail))
         == "{\n" + JoinText(MemberTexts(v, |v.members|, indent), "\n") + "\n" + (Spaces(indent) + "}")
  {
    var inside := MemberLines(v, |v.members|, indent);
    MemberLinesAre(v, |v.members|, indent);
    BrokenText("{", inside, indent, "}");
    assert "{" + "\n" == "{\n";
    assert Pretty(v, indent, column, tail) == Broken("{", inside, indent, "}");
  }

  lemma {:induction false} BrokenText(open: string, inside: Doc, indent: nat, close: string)
    ensures Text(Broken(open, inside, indent, close))
         == (open + "\n") + Text(inside) + "\n" + (Spaces(indent) + close)
  {
    assert Text(Cat(Mark(open), Break)) == open + "\n";
    assert Text(Three(Break, Blank(indent), Mark(close))) == "\n" + (Spaces(indent) + close);
    Regroup(open, "\n", Text(inside), "\n", Spaces(indent) + close);
  }

  // ---- a broken array

  function ItemText(v: Json, n: nat, indent: nat): string
    requires v.Arr? && n < |v.items|
  {
    var last := n + 1 == |v.items|;
    Spaces(indent + 2) + Text(Pretty(v.items[n], indent + 2, indent + 2, !last)) + if last then "" else ","
  }

  function ItemTexts(v: Json, n: nat, indent: nat): seq<string>
    requires v.Arr? && n <= |v.items|
  {
    seq(n, i requires 0 <= i < n => ItemText(v, i, indent))
  }

  lemma {:induction false} ItemLinesAre(v: Json, n: nat, indent: nat)
    requires v.Arr? && n <= |v.items|
    ensures Text(ItemLines(v, n, indent)) == JoinText(ItemTexts(v, n, indent), "\n")
    decreases n
  {
    if n > 0 {
      ItemLinesAre(v, n - 1, indent);
      var before := ItemLines(v, n - 1, indent);
      var value := Pretty(v.items[n - 1], indent + 2, indent + 2, n < |v.items|);
      assert ItemTexts(v, n, indent) == ItemTexts(v, n - 1, indent) + [ItemText(v, n - 1, indent)];
      JoinSnoc(ItemTexts(v, n - 1, indent), ItemText(v, n - 1, indent), "\n");
      LineText(before, n > 1, Blank(indent + 2), value, n < |v.items|);
    }
  }

  /** The words of one filled line, a space between. */
  function WordTexts(line: seq<Doc>): seq<string> {
    seq(|line|, i requires 0 <= i < |line| => Text(line[i]))
  }

  function FilledTexts(lines: seq<seq<Doc>>, pad: nat): seq<string> {
    seq(|lines|, i requires 0 <= i < |lines| => Spaces(pad) + JoinText(WordTexts(lines[i]), " "))
  }

  lemma {:induction false} FillLineIs(line: seq<Doc>, pad: nat)
    ensures Text(FillLine(line, pad)) == Spaces(pad) + JoinText(WordTexts(line), " ")
  {
    if line != [] {
      FillLineIs(Init(line), pad);
      assert WordTexts(line) == WordTexts(Init(line)) + [Text(Last(line))];
      JoinSnoc(WordTexts(Init(line)), Text(Last(line)), " ");
      assert Spaces(1) == " ";
    }
  }

  lemma {:induction false} FillDocIs(lines: seq<seq<Doc>>, pad: nat)
    ensures Text(FillDoc(lines, pad)) == JoinText(FilledTexts(lines, pad), "\n")
  {
    if lines != [] {
      FillDocIs(Init(lines), pad);
      FillLineIs(Last(lines), pad);
      var line := Spaces(pad) + JoinText(WordTexts(Last(lines)), " ");
      assert FilledTexts(lines, pad) == FilledTexts(Init(lines), pad) + [line];
      JoinSnoc(FilledTexts(Init(lines), pad), line, "\n");
    }
  }

  /** The words of a number array: each number, and a comma after all but the last. */
  predicate NumberWords(words: seq<Doc>, items: seq<Json>) {
    && |words| == |items|
    && forall i :: 0 <= i < |items| ==>
         items[i].Scalar? && Text(words[i]) == items[i].text + if i + 1 < |items| then "," else ""
  }

  lemma {:induction false} BrokenArray(v: Json, indent: nat, column: nat, tail: bool)
    requires v.Arr? && !OnOneLine(v, column, tail)
    ensures Pretty(v, indent, column, tail)
         == if |v.items| > 1 && AllNumbers(v.items)
            then Broken("[", FillDoc(Greedy(P.Words(v.items), indent + 2, Width), indent + 2), indent, "]")
            else Broken("[", ItemLines(v, |v.items|, indent), indent, "]")
  {
    FlatIs(v);
    AllLongIff(v.items);
  }

  lemma WordsAreNumbers(items: seq<Json>)
    requires AllNumbers(items)
    ensures NumberWords(P.Words(items), items)
  {
    forall i | 0 <= i < |items|
      ensures Text(P.Words(items)[i]) == items[i].text + if i + 1 < |items| then "," else ""
    {
      assert P.Words(items)[i] == Cat(Token(items[i].text, true), Comma(i + 1 < |items|));
    }
  }

  predicate OnlyNumbers(items: seq<Json>) {
    forall item :: item in items ==> item.Scalar? && item.number
  }

  lemma OnlyNumbersIff(items: seq<Json>)
    ensures AllNumbers(items) <==> OnlyNumbers(items)
  {
    assert forall i :: 0 <= i < |items| ==> items[i] in items;
  }

  /** An array that is not on one line is broken at its indent, one item a line, */
  lemma {:induction false} ArrayText(v: Json, indent: nat, column: nat, tail: bool)
    requires v.Arr? && !OnOneLine(v, column, tail) && (|v.items| == 1 || !OnlyNumbers(v.items))
    ensures Text(Pretty(v, indent, column, tail))
         == "[\n" + JoinText(ItemTexts(v, |v.items|, indent), "\n") + "\n" + (Spaces(indent) + "]")
  {
    OnlyNumbersIff(v.items);
    BrokenArray(v, indent, column, tail);
    ItemLinesAre(v, |v.items|, indent);
    BrokenText("[", ItemLines(v, |v.items|, indent), indent, "]");
    assert "[" + "\n" == "[\n";
  }

  /** or, for two or more numbers, in greedily filled lines. */
  lemma {:induction false} NumbersText(v: Json, indent: nat, column: nat, tail: bool) returns (words: seq<Doc>)
    requires v.Arr? && !OnOneLine(v, column, tail) && |v.items| > 1 && OnlyNumbers(v.items)
    ensures NumberWords(words, v.items)
    ensures var lines := Greedy(words, indent + 2, Width);
      Text(Pretty(v, indent, column, tail))
      == "[\n" + JoinText(FilledTexts(lines, indent + 2), "\n") + "\n" + (Spaces(indent) + "]")
  {
    OnlyNumbersIff(v.items);
    words := P.Words(v.items);
    WordsAreNumbers(v.items);
    var lines := Greedy(words, indent + 2, Width);
    BrokenArray(v, indent, column, tail);
    FillDocIs(lines, indent + 2);
    BrokenText("[", FillDoc(lines, indent + 2), indent, "]");
    assert "[" + "\n" == "[\n";
  }

  /** The printed text of a whole value starts at the margin and ends with a newline. */
  lemma {:induction false} PrintedText(v: Json)
    ensures Text(PrettierJson(v)) == Text(Pretty(v, 0, 0, false)) + "\n"
  {
  }
}
