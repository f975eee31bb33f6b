/** prettier's fill (tools/factory/cli.py, _fill): the next word joins the line
    while it fits. Greedy filling uses the fewest lines any in-order split can. */
module Fill {
  import opened Rows

  const WIDTH := 80

  /** The columns a line of words takes after its pad, one space between words. */
  function LineWidth<W>(line: seq<W>, pad: nat, len: W -> nat): nat {
    if line == [] then pad
    else LineWidth(Init(line), pad, len) + len(Last(line)) + if |line| > 1 then 1 else 0
  }

  function Greedy<W>(words: seq<W>, pad: nat, len: W -> nat): (lines: seq<seq<W>>)
    ensures words != [] ==> lines != [] && Last(lines) != []
  {
    if words == [] then []
    else if |words| == 1 then [words]
    else
      var lines := Greedy(Init(words), pad, len);
      if LineWidth(Last(lines), pad, len) + 1 + len(Last(words)) <= WIDTH
      then Init(lines) + [Last(lines) + [Last(words)]]
      else lines + [[Last(words)]]
  }

  function Concat<W>(lines: seq<seq<W>>): seq<W> {
    if lines == [] then [] else Concat(Init(lines)) + Last(lines)
  }

  /** A line is allowed when it fits, or holds a single word. */
  predicate LineAllowed<W>(line: seq<W>, pad: nat, len: W -> nat) {
    line != [] && (|line| == 1 || LineWidth(line, pad, len) <= WIDTH)
  }

  ghost predicate IsSplit<W>(lines: seq<seq<W>>, words: seq<W>, pad: nat, len: W -> nat) {
    Concat(lines) == words && forall line :: line in lines ==> LineAllowed(line, pad, len)
  }

  lemma {:induction false} ConcatSnoc<W>(lines: seq<seq<W>>, line: seq<W>)
    ensures Concat(lines + [line]) == Concat(lines) + line
  {
    assert Init(lines + [line]) == lines;
  }

  /** Greedy lines hold the words in order, and each fits or is a single word. */
  lemma {:induction false} GreedyIsSplit<W>(words: seq<W>, pad: nat, len: W -> nat)
    ensures IsSplit(Greedy(words, pad, len), words, pad, len)
  {
    if |words| == 1 {
      assert Init([words]) == [];
      assert Concat([words]) == words;
    } else if |words| > 1 {
      var lines := Greedy(Init(words), pad, len);
      var word := Last(words);
      GreedyIsSplit(Init(words), pad, len);
      assert words == Init(words) + [word];
      if LineWidth(Last(lines), pad, len) + 1 + len(word) <= WIDTH {
        LineTakesWord(lines, Init(words), word, pad, len);
      } else {
        ConcatSnoc(lines, [word]);
      }
    }
  }

  lemma {:induction false} LineTakesWord<W>(lines: seq<seq<W>>, words: seq<W>, word: W, pad: nat, len: W -> nat)
    requires IsSplit(lines, words, pad, len) && lines != [] && Last(lines) != []
    requires LineWidth(Last(lines), pad, len) + 1 + len(word) <= WIDTH
    ensures IsSplit(Init(lines) + [Last(lines) + [word]], words + [word], pad, len)
  {
    var line := Last(lines) + [word];
    assert Init(line) == Last(lines);
    ConcatSnoc(Init(lines), line);
    assert lines == Init(lines) + [Last(lines)];
  }

  lemma {:induction false} WidthGrows<W>(words: seq<W>, a: nat, b: nat, c: nat, pad: nat, len: W -> nat)
    requires a <= b < c <= |words|
    ensures LineWidth(words[b..c], pad, len) <= LineWidth(words[a..c], pad, len)
    decreases c
  {
    assert Init(words[a..c]) == words[a..c - 1] && Last(words[a..c]) == words[c - 1];
    assert Init(words[b..c]) == words[b..c - 1] && Last(words[b..c]) == words[c - 1];
    if b == c - 1 {
      assert words[b..c - 1] == [];
      PadIsLeast(words[a..c - 1], pad, len);
    } else {
      WidthGrows(words, a, b, c - 1, pad, len);
    }
  }

  lemma {:induction false} PadIsLeast<W>(line: seq<W>, pad: nat, len: W -> nat)
    ensures LineWidth(line, pad, len) >= pad
  {
    if line != [] { PadIsLeast(Init(line), pad, len); }
  }

  /** A prefix of an allowed line is allowed. */
  lemma {:induction false} PrefixNarrower<W>(words: seq<W>, a: nat, b: nat, c: nat, pad: nat, len: W -> nat)
    requires a < b <= c <= |words|
    ensures LineWidth(words[a..b], pad, len) <= LineWidth(words[a..c], pad, len)
    decreases c
  {
    if b < c {
      assert Init(words[a..c]) == words[a..c - 1];
      PrefixNarrower(words, a, b, c - 1, pad, len);
    }
  }

  /** What one more word does to the greedy lines. */
  lemma {:induction false} GreedySnoc<W>(words: seq<W>, i: nat, pad: nat, len: W -> nat)
    requires 0 < i <= |words|
    ensures var lines, word := Greedy(words[..i - 1], pad, len), words[i - 1];
      Greedy(words[..i], pad, len)
      == if lines != [] && LineWidth(Last(lines), pad, len) + 1 + len(word) <= WIDTH
         then Init(lines) + [Last(lines) + [word]] else lines + [[word]]
  {
    assert Init(words[..i]) == words[..i - 1] && Last(words[..i]) == words[i - 1];
    if i == 1 {
      assert words[..1] == [words[0]];
    }
  }

  /** The words from `j` still fit on the open line. */
  lemma {:induction false} TailFits<W>(words: seq<W>, m: nat, j: nat, i: nat, n: nat, pad: nat, len: W -> nat)
    requires m <= j < i - 1 && i <= n <= |words|
    requires LineAllowed(words[m..n], pad, len)
    ensures LineWidth(words[j..i - 1], pad, len) + 1 + len(words[i - 1]) <= WIDTH
    ensures words[j..i - 1] + [words[i - 1]] == words[j..i]
  {
    PrefixNarrower(words, m, i, n, pad, len);
    WidthGrows(words, m, j, i, pad, len);
    assert Init(words[j..i]) == words[j..i - 1] && Last(words[j..i]) == words[i - 1];
  }

  /** No more than `some` lines, or one more, which starts at `j` and ends before `i`. */
  predicate AtMostOneMore<W(==)>(lines: seq<seq<W>>, some: nat, words: seq<W>, m: nat, j: nat, i: nat)
    requires i <= |words|
  {
    |lines| <= some || (|lines| == some + 1 && m <= j < i && Last(lines) == words[j..i])
  }

  lemma OneWordMore<W>(words: seq<W>, before: seq<seq<W>>, some: nat, m: nat, j: nat, i: nat, n: nat,
                       pad: nat, len: W -> nat)
    returns (k: nat)
    requires m < i <= n <= |words| && LineAllowed(words[m..n], pad, len)
    requires AtMostOneMore(before, some, words, m, j, i - 1)
    ensures var word := words[i - 1];
      var lines := if before != [] && LineWidth(Last(before), pad, len) + 1 + len(word) <= WIDTH
                   then Init(before) + [Last(before) + [word]] else before + [[word]];
      AtMostOneMore(lines, some, words, m, k, i)
  {
    k := j;
    if |before| > some {
      TailFits(words, m, j, i, n, pad, len);
    } else {
      assert [words[i - 1]] == words[i - 1..i];
      k := i - 1;
    }
  }

  /** While the words of one allowed line are added, greedy opens at most one
      line: either it has as many lines as at `m`, or its last one starts at `j`. */
  lemma {:induction false} OneMoreLine<W>(words: seq<W>, m: nat, i: nat, n: nat, pad: nat, len: W -> nat)
    returns (j: nat)
    requires m <= i <= n <= |words|
    requires LineAllowed(words[m..n], pad, len)
    ensures AtMostOneMore(Greedy(words[..i], pad, len), |Greedy(words[..m], pad, len)|, words, m, j, i)
    decreases i
  {
    j := m;
    if i > m {
      j := OneMoreLine(words, m, i - 1, n, pad, len);
      GreedySnoc(words, i, pad, len);
      j := OneWordMore(words, Greedy(words[..i - 1], pad, len), |Greedy(words[..m], pad, len)|, m, j, i, n, pad, len);
    }
  }

  /** Greedy filling uses no more lines than any in-order split into allowed lines. */
  lemma {:induction false} GreedyIsOptimal<W>(words: seq<W>, other: seq<seq<W>>, pad: nat, len: W -> nat)
    requires IsSplit(other, words, pad, len)
    ensures |Greedy(words, pad, len)| <= |other|
    decreases |other|
  {
    if other != [] {
      var before := Init(other);
      var m := |Concat(before)|;
      assert other == before + [Last(other)] && Last(other) in other;
      assert words[..m] == Concat(before) && words[m..|words|] == Last(other);
      GreedyIsOptimal(words[..m], before, pad, len);
      var j := OneMoreLine(words, m, |words|, |words|, pad, len);
      assert words[..|words|] == words;
    }
  }

  // ---- the text

  function Len(word: string): nat {
    |word|
  }

  function Spaces(n: nat): string {
    seq(n, _ => ' ')
  }

  function LineText(line: seq<string>, pad: string): string {
    if line == [] then pad
    else LineText(Init(line), pad) + (if |line| > 1 then " " else "") + Last(line)
  }

  lemma {:induction false} LineTextWidth(line: seq<string>, pad: string)
    ensures |LineText(line, pad)| == LineWidth(line, |pad|, Len)
  {
    if line != [] { LineTextWidth(Init(line), pad); }
  }

  /** The text lines are the greedy lines, each after the pad. */
  ghost predicate Rendered(lines: seq<string>, greedy: seq<seq<string>>, pad: string) {
    |lines| == |greedy| && forall i :: 0 <= i < |lines| ==> lines[i] == LineText(greedy[i], pad)
  }

  lemma {:induction false} LineTextSnoc(line: seq<string>, word: string, pad: string)
    ensures LineText(line + [word], pad) == LineText(line, pad) + (if line != [] then " " else "") + word
  {
    assert Init(line + [word]) == line;
  }

  lemma WordJoins(lines: seq<string>, greedy: seq<seq<string>>, word: string, pad: string)
    requires Rendered(lines, greedy, pad) && greedy != [] && Last(greedy) != []
    ensures Rendered(lines[|lines| - 1 := Last(lines) + " " + word], Init(greedy) + [Last(greedy) + [word]], pad)
  {
    LineTextSnoc(Last(greedy), word, pad);
  }

  lemma WordOpens(lines: seq<string>, greedy: seq<seq<string>>, word: string, pad: string)
    requires Rendered(lines, greedy, pad)
    ensures Rendered(lines + [pad + word], greedy + [[word]], pad)
  {
    LineTextSnoc([], word, pad);
    assert [] + [word] == [word];
    assert LineText([], pad) + "" + word == pad + word;
  }

  /** Where the next word goes in the text is where it goes in the greedy lines. */
  lemma {:induction false} NextLines(lines: seq<string>, greedy: seq<seq<string>>, next: seq<seq<string>>,
                                     word: string, pad: string)
    requires Rendered(lines, greedy, pad) && greedy != [] && Last(greedy) != []
    requires |LineText(Last(greedy), pad)| == LineWidth(Last(greedy), |pad|, Len)
    requires next == if LineWidth(Last(greedy), |pad|, Len) + 1 + Len(word) <= WIDTH
                     then Init(greedy) + [Last(greedy) + [word]] else greedy + [[word]]
    ensures Rendered(
      if |Last(lines)| + 1 + |word| <= WIDTH
      then lines[|lines| - 1 := Last(lines) + " " + word] else lines + [pad + word],
      next, pad)
  {
    if |Last(lines)| + 1 + |word| <= WIDTH {
      WordJoins(lines, greedy, word, pad);
    } else {
      WordOpens(lines, greedy, word, pad);
    }
  }

  /** _fill, extending its last line in place. */
  method FillLines(words: seq<string>, pad: string) returns (lines: seq<string>)
    requires words != []
    ensures Rendered(lines, Greedy(words, |pad|, Len), pad)
  {
    lines := [pad + words[0]];
    WordOpens([], [], words[0], pad);
    GreedySnoc(words, 1, |pad|, Len);
    var i := 1;
    while i < |words|
      invariant 1 <= i <= |words|
      invariant Rendered(lines, Greedy(words[..i], |pad|, Len), pad)
    {
      ghost var greedy, next := Greedy(words[..i], |pad|, Len), Greedy(words[..i + 1], |pad|, Len);
      GreedySnoc(words, i + 1, |pad|, Len);
      LineTextWidth(Last(greedy), pad);
      NextLines(lines, greedy, next, words[i], pad);
      if |lines[|lines| - 1]| + 1 + |words[i]| <= WIDTH {
        lines := lines[|lines| - 1 := lines[|lines| - 1] + " " + words[i]];
      } else {
        lines := lines + [pad + words[i]];
      }
      i := i + 1;
    }
    assert words[..i] == words;
  }
}
