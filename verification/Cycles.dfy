/** Circular dependencies (scripts/check-circular-deps.js): a depth-first search
    from every package, with one visited set and one path per start, that reports
    each cycle once, rotated to its smallest name. */
module Cycles {

  // ---- names, by code unit

  /** Lexicographic order. */
  predicate Leq(a: string, b: string) {
    a == [] || (b != [] && (a[0] < b[0] || (a[0] == b[0] && Leq(a[1..], b[1..]))))
  }

  lemma {:induction false} LeqTotal(a: string, b: string)
    ensures Leq(a, b) || Leq(b, a)
  {
    if a != [] && b != [] && a[0] == b[0] { LeqTotal(a[1..], b[1..]); }
  }

  lemma {:induction false} LeqAntisymmetric(a: string, b: string)
    requires Leq(a, b) && Leq(b, a)
    ensures a == b
  {
    if a != [] && b != [] {
      LeqAntisymmetric(a[1..], b[1..]);
      assert a == [a[0]] + a[1..] && b == [b[0]] + b[1..];
    }
  }

  lemma {:induction false} LeqTransitive(a: string, b: string, c: string)
    requires Leq(a, b) && Leq(b, c)
    ensures Leq(a, c)
  {
    if a != [] && a[0] == b[0] && b[0] == c[0] { LeqTransitive(a[1..], b[1..], c[1..]); }
  }

  /** A name comes first when it is a prefix of the other, or smaller where they part. */
  lemma {:induction false} LeqIsLexicographic(a: string, b: string)
    ensures Leq(a, b)
       <==> a <= b || exists k :: 0 <= k < |a| && k < |b| && a[..k] == b[..k] && a[k] < b[k]
  {
    if a != [] && b != [] && a[0] == b[0] {
      var s, t := a[1..], b[1..];
      LeqIsLexicographic(s, t);
      assert a == [a[0]] + s && b == [b[0]] + t;
      if k :| 0 <= k < |s| && k < |t| && s[..k] == t[..k] && s[k] < t[k] {
        assert a[..k + 1] == [a[0]] + s[..k] && b[..k + 1] == [b[0]] + t[..k];
        assert a[k + 1] < b[k + 1];
      }
      if k :| 0 <= k < |a| && k < |b| && a[..k] == b[..k] && a[k] < b[k] {
        assert k > 0 && s[..k - 1] == a[..k][1..] && t[..k - 1] == b[..k][1..];
        assert s[k - 1] < t[k - 1];
      }
    } else if a != [] && b != [] {
      assert a[..0] == b[..0];
      if k :| 0 < k < |a| && k < |b| && a[..k] == b[..k] && a[k] < b[k] {
        assert a[..k][0] == b[..k][0];
      }
    }
  }

  // ---- the graph

  /** Each package's dependency names, some of which may be no package. */
  type Graph = map<string, seq<string>>

  predicate Edge(g: Graph, a: string, b: string) {
    a in g && b in g[a]
  }

  predicate Distinct(s: seq<string>) {
    forall i, j :: 0 <= i < j < |s| ==> s[i] != s[j]
  }

  predicate IsWalk(g: Graph, w: seq<string>) {
    forall i :: 0 <= i < |w| - 1 ==> Edge(g, w[i], w[i + 1])
  }

  /** A package lies on a cycle when some walk leads from it back to it. */
  ghost predicate OnCycle(g: Graph, p: string) {
    exists w :: |w| >= 2 && w[0] == p && w[|w| - 1] == p && IsWalk(g, w)
  }

  /** A report: a closed walk of distinct packages from its smallest name. */
  ghost predicate IsReport(g: Graph, r: seq<string>) {
    && |r| >= 2 && r[|r| - 1] == r[0]
    && IsWalk(g, r)
    && Distinct(r[..|r| - 1])
    && forall x :: x in r ==> Leq(r[0], x)
  }

  /** A report without its closing name. */
  function Open(r: seq<string>): seq<string> {
    if r == [] then [] else r[..|r| - 1]
  }

  predicate Reports(cycles: seq<seq<string>>, p: string) {
    exists r :: r in cycles && p in r
  }

  predicate IsRotation(a: seq<string>, b: seq<string>) {
    exists k :: 0 <= k <= |a| && b == a[k..] + a[..k]
  }

  // ---- one reported cycle

  /** The index of the smallest name. */
  function MinIndex(c: seq<string>): (m: nat)
    requires c != []
    ensures m < |c| && forall x :: x in c ==> Leq(c[m], x)
  {
    if |c| == 1 then
      LeqTotal(c[0], c[0]);
      0
    else
      var m := MinIndex(c[..|c| - 1]);
      var last := c[|c| - 1];
      LeqTotal(c[m], last);
      LeqTotal(last, last);
      assert c == c[..|c| - 1] + [last];
      if Leq(c[m], last) then m
      else
        assert forall x :: x in c[..|c| - 1] ==> Leq(last, x) by {
          forall x | x in c[..|c| - 1] ensures Leq(last, x) { LeqTransitive(last, c[m], x); }
        }
        |c| - 1
  }

  /** The cycle rotated to its smallest name, and closed. */
  function Normalized(c: seq<string>): seq<string>
    requires c != []
  {
    var m := MinIndex(c);
    c[m..] + c[..m] + [c[m]]
  }

  /** A closed path of distinct packages normalizes to a report of its packages. */
  lemma NormalizedIsReport(g: Graph, c: seq<string>)
    requires c != [] && Distinct(c) && IsWalk(g, c) && Edge(g, c[|c| - 1], c[0])
    ensures IsReport(g, Normalized(c))
    ensures forall x :: x in c <==> x in Normalized(c)
  {
    var m := MinIndex(c);
    var r := Normalized(c);
    assert r[..|r| - 1] == c[m..] + c[..m];
    forall x ensures x in c <==> x in r {
      assert c == c[..m] + c[m..];
    }
    forall i | 0 <= i < |r| - 1
      ensures Edge(g, r[i], r[i + 1])
    {
      if i < |c| - m - 1 {
        assert r[i] == c[m + i] && r[i + 1] == c[m + i + 1];
      } else if i == |c| - m - 1 {
        assert r[i] == c[|c| - 1];
        assert r[i + 1] == c[0];
      } else {
        assert r[i] == c[i - (|c| - m)];
        assert r[i + 1] == c[i + 1 - (|c| - m)];
      }
    }
    var d := r[..|r| - 1];
    forall i, j | 0 <= i < j < |d|
      ensures d[i] != d[j]
    {
      assert d[i] == c[if m + i < |c| then m + i else m + i - |c|];
      assert d[j] == c[if m + j < |c| then m + j else m + j - |c|];
    }
  }

  /** A rotation that starts at its smallest name is no rotation at all. */
  lemma RotationIsSame(a: seq<string>, b: seq<string>)
    requires a != [] && b != [] && Distinct(a) && IsRotation(a, b)
    requires (forall x :: x in a ==> Leq(a[0], x)) && (forall x :: x in b ==> Leq(b[0], x))
    ensures a == b
  {
    var k :| 0 <= k <= |a| && b == a[k..] + a[..k];
    if 0 < k < |a| {
      assert b[0] == a[k] && a[0] == b[|a| - k];
      assert b[0] in a && a[0] in b;
      LeqAntisymmetric(a[0], b[0]);
    }
  }

  /** Two reports that are rotations of one another are the same report. */
  lemma RotatedReportsAreEqual(g: Graph, r: seq<string>, s: seq<string>)
    requires IsReport(g, r) && IsReport(g, s)
    requires IsRotation(Open(r), Open(s))
    ensures r == s
  {
    var a, b := Open(r), Open(s);
    assert r == a + [a[0]] && s == b + [b[0]];
    assert a == b by {
      assert forall x :: x in a ==> x in r;
      assert forall x :: x in b ==> x in s;
      RotationIsSame(a, b);
    }
  }

  // ---- the search

  /** Every name the search may meet. */
  function Names(g: Graph): set<string> {
    g.Keys + set a, b | a in g && b in g[a] :: b
  }

  /** The index of a name on the path. */
  function IndexOf(path: seq<string>, name: string): (i: nat)
    requires name in path
    ensures i < |path| && path[i] == name && name !in path[..i]
  {
    if path[0] == name then 0
    else
      var i := 1 + IndexOf(path[1..], name);
      assert path[..i] == [path[0]] + path[1..][..i - 1];
      i
  }

  class Search {
    const g: Graph
    var visited: set<string>
    var path: seq<string>
    var cycles: seq<seq<string>>

    constructor (g: Graph)
      ensures this.g == g && visited == {} && path == [] && cycles == []
    {
      this.g := g;
      visited, path, cycles := {}, [], [];
    }

    /** What the reports keep: each is a report, and none is repeated. */
    ghost predicate Sound()
      reads this
    {
      && (forall r :: r in cycles ==> IsReport(g, r))
      && (forall i, j :: 0 <= i < j < |cycles| ==> cycles[i] != cycles[j])
    }

    /** The path is a walk of distinct visited packages from the root. */
    ghost predicate Walking(root: string)
      reads this
    {
      && IsWalk(g, path) && Distinct(path)
      && (forall x :: x in path ==> x in visited && x in g)
      && (path != [] ==> path[0] == root)
      && visited <= Names(g)
    }

    /** A finished package: its dependencies are visited, and an edge of it back
        to the root was reported. */
    ghost predicate Finished(x: string, root: string)
      reads this
    {
      x in g ==> forall d :: d in g[x] ==> d in visited && (d == root ==> Reports(cycles, root))
    }

    method Report(name: string)
      requires name in path && path != [] && IsWalk(g, path) && Distinct(path) && Edge(g, path[|path| - 1], name)
      requires Sound()
      modifies this`cycles
      ensures Sound() && old(cycles) <= cycles
      ensures Reports(cycles, name)
    {
      var start := IndexOf(path, name);
      var c := path[start..];
      NormalizedIsReport(g, c);
      var normalized := Normalized(c);
      assert c[0] == name && name in normalized;
      if normalized !in cycles {
        cycles := cycles + [normalized];
        assert cycles[|cycles| - 1] == normalized;
      }
    }

    method Dfs(name: string, ghost root: string)
      requires Walking(root) && Sound() && name in Names(g)
      requires if path == [] then name == root else Edge(g, path[|path| - 1], name)
      modifies this
      ensures Walking(root) && Sound()
      ensures path == old(path) && old(visited) <= visited && old(cycles) <= cycles
      ensures name in visited
      ensures forall x :: x in visited && x !in old(visited) ==> Finished(x, root)
      ensures name == root && path != [] ==> Reports(cycles, root)
      decreases Names(g) - visited
    {
      if name in path {
        Report(name);
        return;
      }
      if name in visited { return; }
      visited := visited + {name};
      if name !in g { return; }
      path := path + [name];
      var deps := g[name];
      var i := 0;
      while i < |deps|
        invariant 0 <= i <= |deps|
        invariant path == old(path) + [name]
        invariant Walking(root) && Sound()
        invariant old(visited) + {name} <= visited && old(cycles) <= cycles
        invariant forall x :: x in visited && x !in old(visited) && x != name ==> Finished(x, root)
        invariant forall j :: 0 <= j < i ==> deps[j] in visited && (deps[j] == root ==> Reports(cycles, root))
      {
        assert deps[i] in g[name];
        Dfs(deps[i], root);
        i := i + 1;
      }
      path := path[..|path| - 1];
    }

    /** Once the search from `root` is done, every package it visited is finished. */
    lemma {:induction false} WalkedIsVisited(w: seq<string>, root: string, k: nat)
      requires root in visited && forall x :: x in visited ==> Finished(x, root)
      requires IsWalk(g, w) && w != [] && w[0] == root && k < |w|
      ensures w[k] in visited
    {
      if k > 0 {
        WalkedIsVisited(w, root, k - 1);
        assert Edge(g, w[k - 1], w[k]);
      }
    }

    lemma RootIsReported(root: string)
      requires root in visited && forall x :: x in visited ==> Finished(x, root)
      requires OnCycle(g, root)
      ensures Reports(cycles, root)
    {
      var w :| |w| >= 2 && w[0] == root && w[|w| - 1] == root && IsWalk(g, w);
      WalkedIsVisited(w, root, |w| - 2);
      assert Edge(g, w[|w| - 2], w[|w| - 1]);
    }
  }

  lemma ReportsStay(cycles: seq<seq<string>>, more: seq<seq<string>>, p: string)
    requires Reports(cycles, p) && cycles <= more
    ensures Reports(more, p)
  {
    var r :| r in cycles && p in r;
    assert r in more;
  }

  /** Any package of a report lies on a cycle. */
  lemma ReportedIsOnCycle(g: Graph, r: seq<string>, p: string)
    requires IsReport(g, r) && p in r
    ensures OnCycle(g, p)
  {
    var k :| 0 <= k < |r| && r[k] == p;
    if k == 0 || k == |r| - 1 {
      assert |r| >= 2 && r[0] == p && r[|r| - 1] == p && IsWalk(g, r);
    } else {
      var w := r[k..] + r[1..k + 1];
      forall i | 0 <= i < |w| - 1
        ensures Edge(g, w[i], w[i + 1])
      {
        if i < |r| - k - 1 {
          assert w[i] == r[k + i] && w[i + 1] == r[k + i + 1];
        } else if i == |r| - k - 1 {
          assert w[i] == r[|r| - 1] == r[0] && w[i + 1] == r[1];
        } else {
          assert w[i] == r[i - (|r| - k) + 1] && w[i + 1] == r[i - (|r| - k) + 2];
        }
      }
      assert |w| >= 2 && w[0] == p && w[|w| - 1] == p && IsWalk(g, w);
    }
  }

  lemma OnCycleIsPackage(g: Graph, p: string)
    requires OnCycle(g, p)
    ensures p in g
  {
    var w :| |w| >= 2 && w[0] == p && w[|w| - 1] == p && IsWalk(g, w);
    assert Edge(g, w[0], w[1]);
  }

  /** findCycles. A package is reported exactly when it lies on a dependency
      cycle; every report is a closed walk of distinct packages from its smallest
      name; and no two reports are rotations of one another. */
  method FindCycles(g: Graph, order: seq<string>) returns (cycles: seq<seq<string>>)
    requires forall p :: p in order <==> p in g
    ensures forall p :: OnCycle(g, p) <==> Reports(cycles, p)
    ensures cycles == [] <==> forall p :: !OnCycle(g, p)
    ensures forall r :: r in cycles ==> IsReport(g, r)
    ensures forall i, j :: 0 <= i < |cycles| && 0 <= j < |cycles| && i != j ==>
      !IsRotation(Open(cycles[i]), Open(cycles[j]))
  {
    var s := new Search(g);
    var i := 0;
    while i < |order|
      invariant 0 <= i <= |order| && s.g == g && fresh(s)
      invariant s.path == [] && s.Sound()
      invariant forall j :: 0 <= j < i && OnCycle(g, order[j]) ==> Reports(s.cycles, order[j])
    {
      ghost var before := s.cycles;
      var start := order[i];
      s.visited, s.path := {}, [];
      assert start in order;
      s.Dfs(start, start);
      forall j | 0 <= j < i + 1 && OnCycle(g, order[j])
        ensures Reports(s.cycles, order[j])
      {
        if j < i { ReportsStay(before, s.cycles, order[j]); } else { s.RootIsReported(start); }
      }
      i := i + 1;
    }
    cycles := s.cycles;
    forall p
      ensures OnCycle(g, p) <==> Reports(cycles, p)
    {
      if OnCycle(g, p) { OnCycleIsPackage(g, p); assert p in order; }
      if Reports(cycles, p) {
        var r :| r in cycles && p in r;
        ReportedIsOnCycle(g, r, p);
      }
    }
    if cycles != [] {
      assert cycles[0] in cycles;
      assert cycles[0][0] in cycles[0] && Reports(cycles, cycles[0][0]);
    }
    forall i, j | 0 <= i < |cycles| && 0 <= j < |cycles| && i != j
      ensures !IsRotation(Open(cycles[i]), Open(cycles[j]))
    {
      assert cycles[i] in cycles && cycles[j] in cycles;
      if IsRotation(Open(cycles[i]), Open(cycles[j])) {
        RotatedReportsAreEqual(g, cycles[i], cycles[j]);
      }
    }
  }

  // ---- the reported text

  const ARROW: char := '\U{2192}'

  /** A report's text: its names joined by an arrow between spaces. */
  function Join(names: seq<string>): string
    requires names != []
  {
    if |names| == 1 then names[0] else names[0] + [' ', ARROW, ' '] + Join(names[1..])
  }

  /** Where the first arrow of a text stands; its length when it holds none. */
  function ArrowIndex(s: string): nat {
    if s == [] || s[0] == ARROW then 0 else 1 + ArrowIndex(s[1..])
  }

  lemma {:induction false} ArrowAfter(a: string, x: string)
    requires ARROW !in a
    ensures ArrowIndex(a + [' ', ARROW, ' '] + x) == |a| + 1
    ensures ArrowIndex(a) == |a|
  {
    var s := a + [' ', ARROW, ' '] + x;
    if a == [] {
      assert s[1..][0] == ARROW;
    } else {
      ArrowAfter(a[1..], x);
      assert s[1..] == a[1..] + [' ', ARROW, ' '] + x;
    }
  }

  /** Comparing texts is comparing reports, as long as no name holds an arrow. */
  lemma {:induction false} JoinIsInjective(a: seq<string>, b: seq<string>)
    requires a != [] && b != [] && Join(a) == Join(b)
    requires forall name :: name in a || name in b ==> ARROW !in name
    ensures a == b
  {
    ArrowAfter(a[0], if |a| > 1 then Join(a[1..]) else []);
    ArrowAfter(b[0], if |b| > 1 then Join(b[1..]) else []);
    assert a == [a[0]] + a[1..] && b == [b[0]] + b[1..];
    if |a| > 1 {
      assert Join(a)[..|a[0]|] == a[0] && Join(a)[|a[0]| + 3..] == Join(a[1..]);
      assert Join(b)[..|b[0]|] == b[0] && Join(b)[|b[0]| + 3..] == Join(b[1..]);
      JoinIsInjective(a[1..], b[1..]);
    }
  }
}
