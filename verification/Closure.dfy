/** The dependency closure of a package (scripts/check-env-sync.js): a breadth-first
    search over the workspace packages its manifests name. */
module Closure {

  /** `manifests` holds the dependency names of every directory whose package.json
      is there and parses; `packages` maps a workspace package's name to its directory. */
  datatype Workspace = Workspace(manifests: map<string, seq<string>>, packages: map<string, string>)
  {
    /** Directory `a` depends on directory `b`, a workspace package. */
    predicate Depends(a: string, b: string) {
      a in manifests && b != "" && exists name :: name in manifests[a] && name in packages && packages[name] == b
    }

    predicate IsWalk(w: seq<string>) {
      forall i :: 0 <= i < |w| - 1 ==> Depends(w[i], w[i + 1])
    }

    ghost predicate Reaches(start: string, dir: string) {
      exists w :: w != [] && w[0] == start && w[|w| - 1] == dir && IsWalk(w)
    }
  }

  lemma ReachesItself(ws: Workspace, start: string)
    ensures ws.Reaches(start, start)
  {
    assert ws.IsWalk([start]) && [start][0] == start;
  }

  lemma ReachesOneMore(ws: Workspace, start: string, a: string, b: string)
    requires ws.Reaches(start, a) && ws.Depends(a, b)
    ensures ws.Reaches(start, b)
  {
    var w :| w != [] && w[0] == start && w[|w| - 1] == a && ws.IsWalk(w);
    var more := w + [b];
    assert forall i :: 0 <= i < |more| - 1 ==> ws.Depends(more[i], more[i + 1]);
    assert more[0] == start && more[|more| - 1] == b && ws.IsWalk(more);
  }

  /** A set that holds the start and is closed under dependency holds all it reaches. */
  lemma {:induction false} ClosedHoldsWalk(ws: Workspace, visited: set<string>, w: seq<string>, k: nat)
    requires forall a, b :: a in visited && ws.Depends(a, b) ==> b in visited
    requires ws.IsWalk(w) && w != [] && w[0] in visited && k < |w|
    ensures w[k] in visited
  {
    if k > 0 {
      ClosedHoldsWalk(ws, visited, w, k - 1);
      assert ws.Depends(w[k - 1], w[k]);
    }
  }

  /** What every turn of the queue keeps. */
  ghost predicate Searching(start: string, ws: Workspace, visited: set<string>, queue: seq<string>) {
    && start in visited && visited <= {start} + ws.packages.Values
    && (forall d :: d in queue ==> d in visited)
    && (forall d :: d in visited ==> ws.Reaches(start, d))
  }

  /** Every dependency of a directory that is visited and not queued is visited. */
  ghost predicate Expanded(ws: Workspace, visited: set<string>, queue: seq<string>, but: string) {
    forall a, b :: a in visited && a !in queue && a != but && ws.Depends(a, b) ==> b in visited
  }

  /** One directory's dependencies: the unvisited workspace ones are visited and queued. */
  method Enqueue(start: string, dir: string, ws: Workspace, before: set<string>, left: seq<string>)
    returns (visited: set<string>, queue: seq<string>)
    requires dir in ws.manifests && dir in before && Searching(start, ws, before, left)
    requires Expanded(ws, before, left, dir)
    ensures Searching(start, ws, visited, queue) && before <= visited
    ensures visited == before ==> queue == left
    ensures forall b :: ws.Depends(dir, b) ==> b in visited
    ensures Expanded(ws, visited, queue, dir)
  {
    visited, queue := before, left;
    var names := ws.manifests[dir];
    var i := 0;
    while i < |names|
      invariant 0 <= i <= |names|
      invariant Searching(start, ws, visited, queue) && before <= visited
      invariant visited == before ==> queue == left
      invariant forall d :: d in left ==> d in queue
      invariant forall d :: d in visited ==> d in before || d in queue
      invariant forall j :: 0 <= j < i && names[j] in ws.packages && ws.packages[names[j]] != "" ==>
        ws.packages[names[j]] in visited
    {
      var name := names[i];
      if name in ws.packages && ws.packages[name] != "" && ws.packages[name] !in visited {
        var dep := ws.packages[name];
        assert ws.Depends(dir, dep);
        ReachesOneMore(ws, start, dir, dep);
        visited, queue := visited + {dep}, queue + [dep];
      }
      i := i + 1;
    }
  }

  /** resolveDependencyClosure: exactly the workspace directories reachable from
      the start, without the start, cycles included. */
  method ResolveDependencyClosure(start: string, ws: Workspace) returns (closure: set<string>)
    ensures forall dir :: dir in closure <==> dir != start && ws.Reaches(start, dir)
  {
    var visited := {start};
    var queue := [start];
    ReachesItself(ws, start);
    while queue != []
      invariant Searching(start, ws, visited, queue)
      invariant Expanded(ws, visited, queue, start)
      invariant start in queue || forall b :: ws.Depends(start, b) ==> b in visited
      decreases {start} + ws.packages.Values - visited, |queue|
    {
      var dir := queue[0];
      assert queue == [dir] + queue[1..];
      ghost var before := visited;
      queue := queue[1..];
      if dir in ws.manifests {
        visited, queue := Enqueue(start, dir, ws, visited, queue);
        assert before <= visited;
      }
    }
    closure := visited - {start};
    forall dir | ws.Reaches(start, dir)
      ensures dir in visited
    {
      var w :| w != [] && w[0] == start && w[|w| - 1] == dir && ws.IsWalk(w);
      ClosedHoldsWalk(ws, visited, w, |w| - 1);
    }
  }
}
