/** The memoised longest-path walk over a dependency graph. */
module Depth {
  import opened Basics

  type Graph<T> = map<T, seq<T>>

  // ---------------------------------------------------------------- paths

  /** Each node but the last lists its successor; the last may be missing. */
  ghost predicate Path<T(!new)>(g: Graph<T>, p: seq<T>) {
    && p != []
    && forall i :: 0 <= i < |p| - 1 ==> p[i] in g && p[i + 1] in g[p[i]]
  }

  ghost predicate DependencyClosed<T(!new)>(g: Graph<T>) {
    forall id, dep :: id in g && dep in g[id] ==> dep in g
  }

  /** No path inside the graph has more than `limit` nodes. */
  ghost predicate ShortPaths<T(!new)>(g: Graph<T>, limit: int) {
    forall p :: Path(g, p) && p[0] in g ==> |p| <= limit
  }

  ghost predicate Acyclic<T(!new)>(g: Graph<T>) {
    forall p :: Path(g, p) && |p| > 1 ==> p[0] != p[|p| - 1]
  }

  /** `d` is the node count of a longest path, zero for the empty graph. */
  ghost predicate IsDepth<T(!new)>(g: Graph<T>, d: nat) {
    && ShortPaths(g, d)
    && (if |g| == 0 then d == 0 else exists p :: Path(g, p) && p[0] in g && |p| == d)
  }

  /** Paths from `id` have at most `d` nodes and end inside the graph. */
  ghost predicate Bounded<T(!new)>(g: Graph<T>, id: T, d: int) {
    forall p :: Path(g, p) && p[0] == id ==> |p| <= d && p[|p| - 1] in g
  }

  ghost predicate Attains<T(!new)>(g: Graph<T>, id: T, d: int) {
    exists p :: Path(g, p) && p[0] == id && |p| == d
  }

  ghost predicate Settled<T(!new)>(g: Graph<T>, id: T, d: int) {
    id in g && Bounded(g, id, d) && Attains(g, id, d)
  }

  // ---------------------------------------------------------------- cycles and length

  /** A path that returns to its start can be followed for any number of nodes. */
  lemma {:induction false} Pump<T(!new)>(g: Graph<T>, cycle: seq<T>, n: nat) returns (p: seq<T>)
    requires Path(g, cycle) && |cycle| > 1 && cycle[0] == cycle[|cycle| - 1]
    ensures Path(g, p) && p[0] == cycle[0] && |p| > n
  {
    if n == 0 {
      p := [cycle[0]];
    } else {
      var rest := Pump(g, cycle, n - 1);
      p := cycle[..|cycle| - 1] + rest;
    }
  }

  /** Any bound on path length rules out cycles. */
  lemma ShortIsAcyclic<T(!new)>(g: Graph<T>, limit: int)
    requires ShortPaths(g, limit)
    ensures Acyclic(g)
  {
    forall p | Path(g, p) && |p| > 1 ensures p[0] != p[|p| - 1] {
      if p[0] == p[|p| - 1] {
        var long := Pump(g, p, if limit < 0 then 0 else limit);
      }
    }
  }

  lemma {:induction false} PathInside<T(!new)>(g: Graph<T>, p: seq<T>, i: nat)
    requires DependencyClosed(g) && Path(g, p) && p[0] in g && i < |p|
    ensures p[i] in g
  {
    if i > 0 {
      PathInside(g, p, i - 1);
    }
  }

  lemma {:induction false} DistinctFit<T(!new)>(p: seq<T>, s: set<T>)
    requires forall i :: 0 <= i < |p| ==> p[i] in s
    requires forall i, j :: 0 <= i < j < |p| ==> p[i] != p[j]
    ensures |p| <= |s|
  {
    if p != [] {
      DistinctFit(p[1..], s - {p[0]});
    }
  }

  /** An acyclic closed graph has no path longer than its number of nodes. */
  lemma AcyclicIsShort<T(!new)>(g: Graph<T>)
    requires DependencyClosed(g) && Acyclic(g)
    ensures ShortPaths(g, |g|)
  {
    forall p | Path(g, p) && p[0] in g ensures |p| <= |g| {
      forall i | 0 <= i < |p| ensures p[i] in g.Keys {
        PathInside(g, p, i);
      }
      forall i, j | 0 <= i < j < |p| ensures p[i] != p[j] {
        assert Path(g, p[i..j + 1]);
      }
      DistinctFit(p, g.Keys);
      assert |g.Keys| == |g|;
    }
  }

  lemma {:induction false} LongestExists<T(!new)>(g: Graph<T>, bound: nat) returns (d: nat)
    requires ShortPaths(g, bound)
    ensures IsDepth(g, d)
  {
    if |g| == 0 {
      d := 0;
    } else if exists p :: Path(g, p) && p[0] in g && |p| == bound {
      d := bound;
    } else {
      var id :| id in g;
      assert Path(g, [id]);
      d := LongestExists(g, bound - 1);
    }
  }

  /** What the walk's success condition means: the graph is closed and acyclic, and
      its longest path fits. */
  lemma AdmissionMeaning<T(!new)>(g: Graph<T>, limit: int)
    ensures DependencyClosed(g) && ShortPaths(g, limit) <==>
      DependencyClosed(g) && Acyclic(g) && exists d: nat :: IsDepth(g, d) && (|g| == 0 || d <= limit)
  {
    if DependencyClosed(g) && Acyclic(g) {
      AcyclicIsShort(g);
      var d := LongestExists(g, |g|);
    }
    if ShortPaths(g, limit) {
      ShortIsAcyclic(g, limit);
    }
  }

  // ---------------------------------------------------------------- one node

  lemma PathHead<T(!new)>(g: Graph<T>, p: seq<T>)
    requires Path(g, p) && |p| > 1
    ensures p[0] in g && p[1] in g[p[0]] && Path(g, p[1..])
  {
  }

  lemma PathCons<T(!new)>(g: Graph<T>, id: T, p: seq<T>)
    requires Path(g, p) && id in g && p[0] in g[id]
    ensures Path(g, [id] + p)
  {
  }

  /** Bounds on all dependencies bound the node. */
  lemma NodeBounded<T(!new)>(g: Graph<T>, id: T, d: int)
    requires id in g && 1 <= d
    requires forall k :: 0 <= k < |g[id]| ==> Bounded(g, g[id][k], d - 1)
    ensures Bounded(g, id, d)
  {
    forall p | Path(g, p) && p[0] == id ensures |p| <= d && p[|p| - 1] in g {
      if |p| > 1 {
        PathHead(g, p);
        var k :| 0 <= k < |g[id]| && g[id][k] == p[1];
        assert Bounded(g, g[id][k], d - 1) && p[1..][0] == p[1];
        assert p[1..][|p| - 2] == p[|p| - 1];
      }
    }
  }

  lemma NodeAttains<T(!new)>(g: Graph<T>, id: T, dep: T, d: int)
    requires id in g && dep in g[id] && Attains(g, dep, d)
    ensures Attains(g, id, d + 1)
  {
    var p :| Path(g, p) && p[0] == dep && |p| == d;
    PathCons(g, id, p);
  }

  /** The walk's own call stack is a path; meeting one of its nodes again is a cycle. */
  lemma RevisitIsCycle<T(!new)>(g: Graph<T>, limit: int, trail: seq<T>)
    requires Path(g, trail) && trail[|trail| - 1] in trail[..|trail| - 1]
    ensures !ShortPaths(g, limit)
  {
    var last := |trail| - 1;
    var k :| 0 <= k < last && trail[k] == trail[last];
    assert Path(g, trail[k..]);
    var p := Pump(g, trail[k..], if limit < 0 then 0 else limit);
  }

  lemma LongPath<T(!new)>(g: Graph<T>, id: T, d: int, limit: int)
    requires id in g && Attains(g, id, d) && d > limit
    ensures !ShortPaths(g, limit)
  {
  }

  // ---------------------------------------------------------------- the walk

  class Walker<T(==, !new)> {
    const graph: Graph<T>
    const limit: int
    var depths: map<T, nat>
    var visiting: set<T>

    constructor (graph: Graph<T>, limit: int)
      ensures this.graph == graph && this.limit == limit
      ensures Memo() && visiting == {}
    {
      this.graph, this.limit := graph, limit;
      depths, visiting := map[], {};
    }

    /** Remembered depths are exact and within the limit. */
    ghost predicate Memo()
      reads this
    {
      forall id :: id in depths ==> Settled(graph, id, depths[id]) && depths[id] <= limit
    }

    /** The nodes being visited are the walk's call stack above `trail`'s last node. */
    ghost predicate OnStack(trail: seq<T>)
      reads this
    {
      && Path(graph, trail) && trail[0] in graph
      && visiting == SetOf(trail[..|trail| - 1])
    }

    ghost predicate Admits() {
      DependencyClosed(graph) && ShortPaths(graph, limit)
    }

    /** Depth of `id`, where `stack` counts the nodes on the path walked to it. */
    method Walk(id: T, stack: nat, ghost trail: seq<T>) returns (d: Option<nat>)
      requires Memo() && OnStack(trail) && trail[|trail| - 1] == id && |trail| == stack
      modifies this
      ensures d.Some? ==> Memo() && visiting == old(visiting)
      ensures d.Some? ==> Settled(graph, id, d.value) && d.value <= limit
      ensures d.None? ==> !Admits()
      decreases graph.Keys - visiting
    {
      hide Bounded, Attains, ShortPaths, DependencyClosed;
      if stack > limit || id in visiting {
        Refused(id, trail);
        return None;
      }
      if id in depths {
        return Some(depths[id]);
      }
      if id !in graph {
        Missing(id, trail);
        return None;
      }
      SelfAttains(graph, id);
      visiting := visiting + {id};
      ghost var stacked := visiting;
      var deepest := 1;
      var deps := graph[id];
      for i := 0 to |deps|
        invariant Memo() && visiting == stacked && deepest >= 1
        invariant Attains(graph, id, deepest)
        invariant forall k :: 0 <= k < i ==> Bounded(graph, deps[k], deepest - 1)
      {
        Stacked(id, trail, deps[i]);
        var child := Walk(deps[i], stack + 1, trail + [deps[i]]);
        if child.None? {
          return None;
        }
        NodeAttains(graph, id, deps[i], child.value);
        BoundsGrow(graph, deps, i, deepest - 1, child.value);
        deepest := if deepest < child.value + 1 then child.value + 1 else deepest;
      }
      visiting := visiting - {id};
      NodeBounded(graph, id, deepest);
      if deepest > limit {
        LongPath(graph, id, deepest, limit);
        return None;
      }
      depths := depths[id := deepest];
      return Some(deepest);
    }

    lemma Refused(id: T, trail: seq<T>)
      requires OnStack(trail) && trail[|trail| - 1] == id && (|trail| > limit || id in visiting)
      ensures !Admits()
    {
      if id in visiting {
        assert id in trail[..|trail| - 1];
        RevisitIsCycle(graph, limit, trail);
      }
    }

    lemma Missing(id: T, trail: seq<T>)
      requires OnStack(trail) && trail[|trail| - 1] == id && id !in graph
      ensures !Admits()
    {
      var before := trail[|trail| - 2];
      assert before in graph && id in graph[before];
    }

    lemma Stacked(id: T, trail: seq<T>, dep: T)
      requires Path(graph, trail) && trail[0] in graph && trail[|trail| - 1] == id
      requires id in graph && dep in graph[id] && visiting == SetOf(trail[..|trail| - 1]) + {id}
      ensures OnStack(trail + [dep])
    {
    }
  }

  lemma SelfAttains<T(!new)>(g: Graph<T>, id: T)
    ensures Attains(g, id, 1)
  {
    assert Path(g, [id]);
  }

  lemma BoundsGrow<T(!new)>(g: Graph<T>, deps: seq<T>, i: nat, d: int, child: nat)
    requires i < |deps| && Bounded(g, deps[i], child)
    requires forall k :: 0 <= k < i ==> Bounded(g, deps[k], d)
    ensures var top := if d < child then child else d;
      forall k :: 0 <= k <= i ==> Bounded(g, deps[k], top)
  {
  }

  /** The memoised walk succeeds exactly on closed graphs whose paths fit the limit, and
      then measures the longest path, whatever order the nodes are visited in. */
  method GraphDepth<T(==, !new)>(graph: Graph<T>, limit: int) returns (depth: Option<nat>)
    ensures depth.Some? <==> DependencyClosed(graph) && ShortPaths(graph, limit)
    ensures depth.Some? ==> IsDepth(graph, depth.value)
  {
    hide Attains, ShortPaths, DependencyClosed;
    var walker := new Walker<T>(graph, limit);
    var rest := graph.Keys;
    var deepest: nat := 0;
    while rest != {}
      invariant walker.graph == graph && walker.limit == limit
      invariant walker.Memo() && walker.visiting == {} && rest <= graph.Keys
      invariant forall id :: id in graph && id !in rest ==> Bounded(graph, id, deepest)
      invariant rest == graph.Keys || deepest <= limit
      invariant if rest == graph.Keys then deepest == 0 else exists id :: id in graph && Attains(graph, id, deepest)
      decreases rest
    {
      var id :| id in rest;
      assert walker.OnStack([id]);
      var d := walker.Walk(id, 1, [id]);
      if d.None? {
        return None;
      }
      deepest := if deepest < d.value then d.value else deepest;
      rest := rest - {id};
    }
    AllBounded(graph, deepest, limit);
    return Some(deepest);
  }

  lemma AllBounded<T(!new)>(g: Graph<T>, d: nat, limit: int)
    requires forall id :: id in g ==> Bounded(g, id, d)
    requires if g.Keys == {} then d == 0 else d <= limit && exists id :: id in g && Attains(g, id, d)
    ensures DependencyClosed(g) && ShortPaths(g, limit) && IsDepth(g, d)
  {
    forall id, dep | id in g && dep in g[id] ensures dep in g {
      assert Path(g, [id, dep]) && Bounded(g, id, d);
    }
    assert |g| == 0 <==> g.Keys == {};
  }
}
