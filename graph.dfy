/**
 * The dependency graph of a batch of normalized tasks: an edge runs from a task to each
 * dependency that is a known task id. Holds the graph construction, cycle detection by
 * depth-first search, the set of ids on reported cycles, and the count of tasks downstream
 * of a task (those that depend on it directly or transitively).
 */
module Graph {
  import opened Normalize

  /** The ids that occur in the batch. */
  function IdSet(tasks: seq<NormalizedTask>): set<int> {
    set t | t in tasks :: t.id
  }

  /**
   * `tasks_by_id`, a dict comprehension over the batch: when two tasks share an id, the later
   * one replaces the earlier.
   */
  function ById(tasks: seq<NormalizedTask>): (m: map<int, NormalizedTask>)
    ensures m.Keys == IdSet(tasks)
    ensures forall id :: id in m ==> m[id] in tasks && m[id].id == id
  {
    if tasks == [] then map[]
    else
      var last := tasks[|tasks| - 1];
      assert tasks == tasks[..|tasks| - 1] + [last];
      ById(tasks[..|tasks| - 1])[last.id := last]
  }

  /** The task kept for an id is the last task in the batch that carries it. */
  lemma {:induction false} ByIdKeepsLast(tasks: seq<NormalizedTask>, i: nat)
    requires i < |tasks|
    requires forall j :: i < j < |tasks| ==> tasks[j].id != tasks[i].id
    ensures ById(tasks)[tasks[i].id] == tasks[i]
  {
    if i < |tasks| - 1 {
      ByIdKeepsLast(tasks[..|tasks| - 1], i);
    }
  }

  predicate Distinct(s: seq<int>) {
    forall i, j :: 0 <= i < j < |s| ==> s[i] != s[j]
  }

  /**
   * The ids in order of first appearance: the order in which a dict keyed by id, built from the
   * batch, yields its keys.
   */
  function Ids(tasks: seq<NormalizedTask>): (r: seq<int>)
    ensures Distinct(r)
    ensures |r| <= |tasks|
    ensures forall x :: x in r <==> x in IdSet(tasks)
  {
    if tasks == [] then []
    else
      var prefix := tasks[..|tasks| - 1];
      var last := tasks[|tasks| - 1];
      assert tasks == prefix + [last];
      var r := Ids(prefix);
      if last.id in r then r else r + [last.id]
  }

  /** `[d for d in deps if d in known]`. */
  function KnownDeps(deps: seq<int>, known: set<int>): (r: seq<int>)
    ensures |r| <= |deps|
    ensures forall x :: x in r <==> x in deps && x in known
  {
    if deps == [] then []
    else
      var r := KnownDeps(deps[..|deps| - 1], known);
      var last := deps[|deps| - 1];
      assert deps == deps[..|deps| - 1] + [last];
      if last in known then r + [last] else r
  }

  /** The number of occurrences of `x` in `s`. */
  function Count(s: seq<int>, x: int): nat {
    if s == [] then 0 else Count(s[..|s| - 1], x) + (if s[|s| - 1] == x then 1 else 0)
  }

  /** Filtering keeps every occurrence of a known id and drops every occurrence of an unknown one. */
  lemma {:induction false} KnownDepsCount(deps: seq<int>, known: set<int>, x: int)
    ensures Count(KnownDeps(deps, known), x) == if x in known then Count(deps, x) else 0
  {
    if deps != [] {
      KnownDepsCount(deps[..|deps| - 1], known, x);
      var r := KnownDeps(deps[..|deps| - 1], known);
      var last := deps[|deps| - 1];
      if last in known {
        assert (r + [last])[..|r|] == r;
      }
    }
  }

  /** `forward`: each task's dependencies restricted to known ids, for the task kept under that id. */
  function Forward(tasks: seq<NormalizedTask>): (m: map<int, seq<int>>)
    ensures m.Keys == IdSet(tasks)
  {
    var byId := ById(tasks);
    map id | id in byId :: KnownDeps(byId[id].dependencies, byId.Keys)
  }

  /** `n` copies of `x`. */
  function Repeat(x: int, n: nat): (r: seq<int>)
    ensures |r| == n && forall k :: 0 <= k < n ==> r[k] == x
  {
    if n == 0 then [] else Repeat(x, n - 1) + [x]
  }

  /**
   * `reverse[d]` as the source's loop leaves it: for each key in dict order, that key once per
   * occurrence of `d` among its forward edges.
   */
  function ReverseList(keys: seq<int>, forward: map<int, seq<int>>, d: int): seq<int>
    requires forall k :: k in keys ==> k in forward
  {
    if keys == [] then []
    else
      var last := keys[|keys| - 1];
      ReverseList(keys[..|keys| - 1], forward, d) + Repeat(last, Count(forward[last], d))
  }

  function Reverse(tasks: seq<NormalizedTask>): (m: map<int, seq<int>>)
    ensures m.Keys == IdSet(tasks)
  {
    var forward := Forward(tasks);
    map d | d in IdSet(tasks) :: ReverseList(Ids(tasks), forward, d)
  }

  /** The inner loop of `_build_graph`: append `tid` to `reverse[dep]` for each dependency in turn. */
  method AppendReverseEdges(reverse: map<int, seq<int>>, tid: int, deps: seq<int>)
    returns (r: map<int, seq<int>>)
    requires forall x :: x in deps ==> x in reverse
    ensures r.Keys == reverse.Keys
    ensures forall d :: d in r ==> r[d] == reverse[d] + Repeat(tid, Count(deps, d))
  {
    r := reverse;
    var j := 0;
    while j < |deps|
      invariant j <= |deps|
      invariant r.Keys == reverse.Keys
      invariant forall d :: d in r ==> r[d] == reverse[d] + Repeat(tid, Count(deps[..j], d))
    {
      var dep := deps[j];
      assert deps[..j + 1][..j] == deps[..j];
      r := r[dep := r[dep] + [tid]];
      j := j + 1;
    }
    assert deps[..j] == deps;
  }

  lemma ReverseListSnoc(keys: seq<int>, forward: map<int, seq<int>>, d: int, i: nat)
    requires i < |keys| && forall k :: k in keys ==> k in forward
    ensures ReverseList(keys[..i + 1], forward, d)
         == ReverseList(keys[..i], forward, d) + Repeat(keys[i], Count(forward[keys[i]], d))
  {
    assert keys[..i + 1][..i] == keys[..i];
  }

  /** `_build_graph`: the id map, the forward edges, and the reverse edges built by appending. */
  method BuildGraph(tasks: seq<NormalizedTask>)
    returns (byId: map<int, NormalizedTask>, forward: map<int, seq<int>>, reverse: map<int, seq<int>>)
    ensures byId == ById(tasks) && forward == Forward(tasks)
    ensures reverse.Keys == IdSet(tasks)
    ensures forall d :: d in reverse ==> reverse[d] == ReverseList(Ids(tasks), Forward(tasks), d)
  {
    byId := ById(tasks);
    forward := Forward(tasks);
    forall k | k in forward ensures forall x :: x in forward[k] ==> x in byId.Keys {
      assert forward[k] == KnownDeps(byId[k].dependencies, byId.Keys);
    }
    reverse := ReverseEdges(Ids(tasks), forward, byId.Keys);
  }

  /**
   * The loop of `_build_graph` over `forward.items()` in key order: every known id starts with an
   * empty list, and each key is appended to the list of each of its dependencies.
   */
  method ReverseEdges(keys: seq<int>, forward: map<int, seq<int>>, known: set<int>)
    returns (reverse: map<int, seq<int>>)
    requires forall k :: k in keys ==> k in forward
    requires forall k :: k in forward ==> forall x :: x in forward[k] ==> x in known
    ensures reverse.Keys == known
    ensures forall d :: d in reverse ==> reverse[d] == ReverseList(keys, forward, d)
  {
    reverse := map id | id in known :: [];
    var i := 0;
    while i < |keys|
      invariant i <= |keys|
      invariant reverse.Keys == known
      invariant forall d :: d in reverse ==> reverse[d] == ReverseList(keys[..i], forward, d)
    {
      var tid := keys[i];
      reverse := AppendReverseEdges(reverse, tid, forward[tid]);
      forall d | d in reverse ensures reverse[d] == ReverseList(keys[..i + 1], forward, d) {
        ReverseListSnoc(keys, forward, d, i);
      }
      i := i + 1;
    }
    assert keys[..i] == keys;
  }

  /**
   * A key appears in `reverse[d]` exactly as often as `d` appears among its forward edges, and
   * nothing else appears there.
   */
  lemma {:induction false} ReverseListCount(keys: seq<int>, forward: map<int, seq<int>>, d: int, t: int)
    requires forall k :: k in keys ==> k in forward
    requires Distinct(keys)
    ensures Count(ReverseList(keys, forward, d), t) == if t in keys then Count(forward[t], d) else 0
  {
    if keys != [] {
      var prefix := keys[..|keys| - 1];
      var last := keys[|keys| - 1];
      assert keys == prefix + [last];
      assert Distinct(prefix) by {
        forall i, j | 0 <= i < j < |prefix| ensures prefix[i] != prefix[j] {
          assert prefix[i] == keys[i] && prefix[j] == keys[j];
        }
      }
      assert last !in prefix by {
        forall i | 0 <= i < |prefix| ensures prefix[i] != last {
          assert prefix[i] == keys[i];
        }
      }
      var front, back := ReverseList(prefix, forward, d), Repeat(last, Count(forward[last], d));
      assert ReverseList(keys, forward, d) == front + back;
      ReverseListCount(prefix, forward, d, t);
      CountAppend(front, back, t);
      CountRepeat(last, Count(forward[last], d), t);
      assert t in keys <==> t in prefix || t == last;
    }
  }

  lemma {:induction false} CountAppend(a: seq<int>, b: seq<int>, x: int)
    ensures Count(a + b, x) == Count(a, x) + Count(b, x)
    decreases |b|
  {
    if b == [] {
      assert a + b == a;
    } else {
      assert (a + b)[..|a + b| - 1] == a + b[..|b| - 1];
      CountAppend(a, b[..|b| - 1], x);
    }
  }

  lemma {:induction false} CountRepeat(y: int, n: nat, x: int)
    ensures Count(Repeat(y, n), x) == if x == y then n else 0
  {
    if n > 0 {
      CountRepeat(y, n - 1, x);
    }
  }

  lemma CountPositive(s: seq<int>, x: int)
    ensures Count(s, x) > 0 <==> x in s
  {
    if s != [] {
      CountPositive(s[..|s| - 1], x);
      assert s == s[..|s| - 1] + [s[|s| - 1]];
    }
  }

  /**
   * What `_build_graph` promises: `forward[t]` keeps exactly the known dependencies of t (every
   * occurrence), and t appears in `reverse[d]` exactly as often as d appears in `forward[t]`.
   */
  lemma BuildGraphEdges(tasks: seq<NormalizedTask>, t: int, d: int)
    requires t in IdSet(tasks)
    ensures Count(Forward(tasks)[t], d) ==
      if d in IdSet(tasks) then Count(ById(tasks)[t].dependencies, d) else 0
    ensures d in IdSet(tasks) ==> Count(Reverse(tasks)[d], t) == Count(Forward(tasks)[t], d)
    ensures forall x :: x in Forward(tasks)[t] ==> x in IdSet(tasks)
    ensures d in IdSet(tasks) ==> forall x :: x in Reverse(tasks)[d] ==> x in IdSet(tasks)
  {
    KnownDepsCount(ById(tasks)[t].dependencies, IdSet(tasks), d);
    if d in IdSet(tasks) {
      ReverseListCount(Ids(tasks), Forward(tasks), d, t);
      forall x | x in Reverse(tasks)[d] ensures x in IdSet(tasks) {
        CountPositive(Reverse(tasks)[d], x);
        ReverseListCount(Ids(tasks), Forward(tasks), d, x);
      }
    }
  }

  /** A dependency edge between two known tasks: `b` is among the dependencies of `a`. */
  predicate Edge(graph: map<int, NormalizedTask>, a: int, b: int) {
    a in graph && b in graph && b in graph[a].dependencies
  }

  /** Consecutive ids are joined by dependency edges. */
  ghost predicate IsPath(graph: map<int, NormalizedTask>, p: seq<int>) {
    forall k :: 0 <= k < |p| - 1 ==> Edge(graph, p[k], p[k + 1])
  }

  /** A reported cycle: a path of at least one edge that starts and ends at the same id. */
  ghost predicate IsClosedWalk(graph: map<int, NormalizedTask>, c: seq<int>) {
    |c| >= 2 && c[0] == c[|c| - 1] && IsPath(graph, c)
  }

  /** No sequence of dependency edges leads from a task back to itself. */
  ghost predicate Acyclic(graph: map<int, NormalizedTask>) {
    forall c :: !IsClosedWalk(graph, c)
  }

  /** The first position of `x` in `s`: Python's `s.index(x)`. */
  function IndexOf(s: seq<int>, x: int): (k: nat)
    requires x in s
    ensures k < |s| && s[k] == x && x !in s[..k]
  {
    if s[0] == x then 0 else 1 + IndexOf(s[1..], x)
  }

  /** The per-node state of the search; a node missing from the map is unvisited. */
  datatype Mark = Visiting | Visited

  /**
   * `detect_cycles`: a recursive depth-first search over the dependency edges. The state map,
   * the path stack and the list of cycles are the variables its nested `dfs` updates.
   */
  class CycleDetector {
    const graph: map<int, NormalizedTask>
    var state: map<int, Mark>
    var stack: seq<int>
    var cycles: seq<seq<int>>

    /**
     * The search invariant: only known ids carry a mark, exactly the ids on the stack are being
     * visited, the stack is a path without repeats, and every cycle so far is a closed walk.
     */
    ghost predicate Valid()
      reads this
    {
      SearchInvariant(graph, state, stack, cycles)
    }

    constructor (graph: map<int, NormalizedTask>)
      ensures Valid()
      ensures this.graph == graph && state == map[] && stack == [] && cycles == []
    {
      this.graph := graph;
      state := map[];
      stack := [];
      cycles := [];
    }

    /** `dfs(u)`: visit `u` and the tasks reachable from it through unvisited tasks, recording back edges as cycles. */
    method Dfs(u: int)
      requires Valid() && u in graph && u !in state
      requires stack == [] || Edge(graph, stack[|stack| - 1], u)
      modifies this
      decreases |graph.Keys - state.Keys|, 0
      ensures Valid()
      ensures stack == old(stack)
      ensures u in state && state[u] == Visited
      ensures Grows(old(state), state)
      ensures old(cycles) <= cycles
    {
      PushKeepsInvariant(graph, state, stack, cycles, u);
      state := state[u := Visiting];
      stack := stack + [u];
      SmallerUnvisited(graph.Keys, old(state).Keys, state.Keys, u);
      VisitDependencies(u);
      GrowsFinish(old(state), state, u);
      PopKeepsInvariant(graph, state, old(stack), cycles, u);
      assert stack[..|stack| - 1] == old(stack);
      stack := stack[..|stack| - 1];
      state := state[u := Visited];
    }

    /** The loop of `dfs(u)`: visit the dependencies of `u`, the top of the path, in order. */
    method VisitDependencies(u: int)
      requires Valid() && u in graph && stack != [] && stack[|stack| - 1] == u
      modifies this
      decreases |graph.Keys - state.Keys|, 2
      ensures Valid()
      ensures stack == old(stack)
      ensures Grows(old(state), state)
      ensures old(cycles) <= cycles
    {
      var deps := graph[u].dependencies;
      var i := 0;
      while i < |deps|
        invariant i <= |deps|
        invariant Valid()
        invariant stack == old(stack)
        invariant Grows(old(state), state)
        invariant old(cycles) <= cycles
      {
        ghost var before := state;
        SubsetCardinality(graph.Keys - state.Keys, graph.Keys - old(state).Keys);
        VisitDependency(u, deps[i]);
        GrowsTransitive(old(state), before, state);
        i := i + 1;
      }
    }

    /**
     * One pass of the loop in `dfs(u)`: an unknown dependency is skipped, an unvisited one is
     * searched, and one still on the path closes a cycle.
     */
    method VisitDependency(u: int, v: int)
      requires Valid() && u in graph && v in graph[u].dependencies
      requires stack != [] && stack[|stack| - 1] == u
      modifies this
      decreases |graph.Keys - state.Keys|, 1
      ensures Valid()
      ensures stack == old(stack)
      ensures Grows(old(state), state)
      ensures old(cycles) <= cycles
      ensures v !in graph ==> state == old(state) && cycles == old(cycles)
      ensures v in graph && v !in old(state) ==> v in state && state[v] == Visited
      ensures v in graph && v in old(state) && old(state)[v] == Visited ==>
                state == old(state) && cycles == old(cycles)
      ensures v in graph && v in old(state) && old(state)[v] == Visiting && v in old(stack) ==>
                state == old(state) && cycles == old(cycles) + [old(stack)[IndexOf(old(stack), v)..] + [v]]
    {
      if v in graph {
        if v !in state {
          Dfs(v);
        } else if state[v] == Visiting && v in stack {
          var cycle := stack[IndexOf(stack, v)..] + [v];
          BackEdgeCloses(graph, stack, v);
          cycles := cycles + [cycle];
        }
      }
    }

    /** The loop of `detect_cycles`: start a search from every task not yet visited, in dict order. */
    method Run(order: seq<int>) returns (result: seq<seq<int>>)
      requires Valid() && state == map[] && stack == []
      requires forall x :: x in order <==> x in graph
      modifies this
      ensures Valid()
      ensures forall x :: x in graph ==> x in state && state[x] == Visited
      ensures stack == []
      ensures result == cycles
      ensures forall c :: c in result ==> IsClosedWalk(graph, c)
    {
      var i := 0;
      while i < |order|
        invariant i <= |order|
        invariant Valid() && stack == []
        invariant forall x :: x in state ==> state[x] == Visited
        invariant forall j :: 0 <= j < i ==> order[j] in state
      {
        var tid := order[i];
        if tid !in state {
          ghost var before := state;
          Dfs(tid);
          forall j | 0 <= j < i ensures order[j] in state {
            assert order[j] in before;
          }
        }
        i := i + 1;
      }
      result := cycles;
    }
  }

  /**
   * The search invariant on the detector's variables: only known ids carry a mark, exactly the
   * ids on the stack are being visited, the stack is a path without repeats, and every cycle so
   * far is a closed walk.
   */
  ghost predicate SearchInvariant(graph: map<int, NormalizedTask>, state: map<int, Mark>, stack: seq<int>,
                                  cycles: seq<seq<int>>) {
    && state.Keys <= graph.Keys
    && (forall x :: x in state && state[x] == Visiting <==> x in stack)
    && Distinct(stack)
    && IsPath(graph, stack)
    && (forall c :: c in cycles ==> IsClosedWalk(graph, c))
  }

  /** Entering an unvisited node along an edge from the top of the path keeps the invariant. */
  lemma PushKeepsInvariant(graph: map<int, NormalizedTask>, state: map<int, Mark>, stack: seq<int>,
                           cycles: seq<seq<int>>, u: int)
    requires SearchInvariant(graph, state, stack, cycles) && u in graph && u !in state
    requires stack == [] || Edge(graph, stack[|stack| - 1], u)
    ensures SearchInvariant(graph, state[u := Visiting], stack + [u], cycles)
  {
    var s := stack + [u];
    forall k | 0 <= k < |s| - 1 ensures Edge(graph, s[k], s[k + 1]) {
      if k < |stack| - 1 {
        assert s[k] == stack[k] && s[k + 1] == stack[k + 1];
      }
    }
  }

  /** Leaving the node on top of the path, marked visited, restores the invariant below it. */
  lemma PopKeepsInvariant(graph: map<int, NormalizedTask>, state: map<int, Mark>, stack: seq<int>,
                          cycles: seq<seq<int>>, u: int)
    requires SearchInvariant(graph, state, stack + [u], cycles) && u in graph
    ensures SearchInvariant(graph, state[u := Visited], stack, cycles)
  {
    var s := stack + [u];
    assert forall k :: 0 <= k < |stack| ==> s[k] == stack[k];
    forall k | 0 <= k < |stack| ensures stack[k] != u {
      assert s[k] != s[|stack|];
    }
  }

  /**
   * The state map only gains entries, every one of them `Visited`; the entries already there
   * keep their marks.
   */
  predicate Grows(before: map<int, Mark>, after: map<int, Mark>) {
    && before.Keys <= after.Keys
    && (forall x :: x in before ==> after[x] == before[x])
    && (forall x :: x in after && x !in before ==> after[x] == Visited)
  }

  lemma GrowsTransitive(a: map<int, Mark>, b: map<int, Mark>, c: map<int, Mark>)
    requires Grows(a, b) && Grows(b, c)
    ensures Grows(a, c)
  {
  }

  /** Marking the node whose search ends as `Visited` completes the growth from the state before it began. */
  lemma GrowsFinish(before: map<int, Mark>, after: map<int, Mark>, u: int)
    requires u !in before && u in after
    requires Grows(before[u := Visiting], after)
    ensures Grows(before, after[u := Visited])
  {
  }

  /** A dependency edge from the top of the search path back to a node on it closes a cycle. */
  lemma BackEdgeCloses(graph: map<int, NormalizedTask>, stack: seq<int>, v: int)
    requires IsPath(graph, stack) && v in stack && Edge(graph, stack[|stack| - 1], v)
    ensures IsClosedWalk(graph, stack[IndexOf(stack, v)..] + [v])
  {
    var k := IndexOf(stack, v);
    var tail := stack[k..];
    PathSuffix(graph, stack, k);
    assert tail[|tail| - 1] == stack[|stack| - 1];
    PathSnoc(graph, tail, v);
  }

  /** A suffix of a path is a path. */
  lemma PathSuffix(graph: map<int, NormalizedTask>, p: seq<int>, k: nat)
    requires IsPath(graph, p) && k <= |p|
    ensures IsPath(graph, p[k..])
  {
    var q := p[k..];
    forall j | 0 <= j < |q| - 1 ensures Edge(graph, q[j], q[j + 1]) {
      assert q[j] == p[k + j] && q[j + 1] == p[k + j + 1];
    }
  }

  /** An edge out of the last node extends a path. */
  lemma PathSnoc(graph: map<int, NormalizedTask>, p: seq<int>, v: int)
    requires IsPath(graph, p) && p != [] && Edge(graph, p[|p| - 1], v)
    ensures IsPath(graph, p + [v])
  {
    var q := p + [v];
    forall j | 0 <= j < |q| - 1 ensures Edge(graph, q[j], q[j + 1]) {
      if j < |p| - 1 {
        assert q[j] == p[j] && q[j + 1] == p[j + 1];
      }
    }
  }

  /** A search step marks one more node, so fewer nodes remain unvisited for the nested search. */
  lemma SmallerUnvisited(all: set<int>, before: set<int>, now: set<int>, u: int)
    requires before + {u} <= now && u in all && u !in before
    ensures |all - now| < |all - before|
  {
    assert all - now <= (all - before) - {u};
    SubsetCardinality(all - now, (all - before) - {u});
  }

  lemma SubsetCardinality(a: set<int>, b: set<int>)
    requires a <= b
    ensures |a| <= |b|
  {
    assert b == a + (b - a);
  }

  /**
   * `detect_cycles` on a graph (a dict keyed by id, iterated in `order`): each reported cycle
   * starts and ends at the same id and follows dependency edges between known tasks, so an acyclic
   * graph yields no cycles.
   */
  method DetectCycles(graph: map<int, NormalizedTask>, order: seq<int>) returns (cycles: seq<seq<int>>)
    requires forall x :: x in order <==> x in graph
    ensures forall c :: c in cycles ==> IsClosedWalk(graph, c)
    ensures Acyclic(graph) ==> cycles == []
  {
    var detector := new CycleDetector(graph);
    cycles := detector.Run(order);
    if cycles != [] {
      assert IsClosedWalk(graph, cycles[0]);
    }
  }

  /** An id lies on a reported cycle. */
  predicate InCycle(cycles: seq<seq<int>>, x: int) {
    exists k :: 0 <= k < |cycles| && x in cycles[k]
  }

  /** `_cycle_nodes`: the set of every id that occurs in some cycle. */
  method CycleNodes(cycles: seq<seq<int>>) returns (s: set<int>)
    ensures forall x :: x in s <==> InCycle(cycles, x)
  {
    s := {};
    var i := 0;
    while i < |cycles|
      invariant i <= |cycles|
      invariant forall x :: x in s <==> exists k :: 0 <= k < i && x in cycles[k]
    {
      var c := cycles[i];
      var j := 0;
      while j < |c|
        invariant j <= |c|
        invariant forall x :: x in s <==> (exists k :: 0 <= k < i && x in cycles[k]) || x in c[..j]
      {
        assert c[..j + 1] == c[..j] + [c[j]];
        s := s + {c[j]};
        j := j + 1;
      }
      assert c[..j] == c;
      i := i + 1;
    }
  }

  /** `reverse.get(u, [])`: the tasks that depend on `u` directly, or none for an unknown id. */
  function Successors(reverse: map<int, seq<int>>, u: int): (r: seq<int>)
    ensures u !in reverse ==> r == []
    ensures u in reverse ==> r == reverse[u]
  {
    if u in reverse then reverse[u] else []
  }

  /** Each id on `p` after the first directly depends on the one before it. */
  ghost predicate IsRevPath(reverse: map<int, seq<int>>, p: seq<int>) {
    forall k :: 0 <= k < |p| - 1 ==> p[k + 1] in Successors(reverse, p[k])
  }

  /** `x` depends on `t` through a chain of one or more reverse edges. */
  ghost predicate Reaches(reverse: map<int, seq<int>>, t: int, x: int) {
    exists p :: |p| >= 2 && p[0] == t && p[|p| - 1] == x && IsRevPath(reverse, p)
  }

  /** Every id that appears in some list of the reverse map. */
  ghost function AllTargets(reverse: map<int, seq<int>>): set<int> {
    set u, w | u in reverse && w in reverse[u] :: w
  }

  /** The tasks that depend on `t` directly or transitively. */
  ghost function Downstream(reverse: map<int, seq<int>>, t: int): set<int> {
    set x | x in AllTargets(reverse) && Reaches(reverse, t, x)
  }

  lemma SuccessorIsTarget(reverse: map<int, seq<int>>, u: int, w: int)
    requires w in Successors(reverse, u)
    ensures w in AllTargets(reverse)
  {
  }

  lemma ReachesDirect(reverse: map<int, seq<int>>, t: int, w: int)
    requires w in Successors(reverse, t)
    ensures Reaches(reverse, t, w)
  {
    assert IsRevPath(reverse, [t, w]);
  }

  lemma ReachesStep(reverse: map<int, seq<int>>, t: int, u: int, w: int)
    requires Reaches(reverse, t, u) && w in Successors(reverse, u)
    ensures Reaches(reverse, t, w)
  {
    var p :| |p| >= 2 && p[0] == t && p[|p| - 1] == u && IsRevPath(reverse, p);
    var q := p + [w];
    assert forall k :: 0 <= k < |p| ==> q[k] == p[k];
    assert IsRevPath(reverse, q);
  }

  /**
   * A set that holds every direct dependent of `t` and is closed under the reverse edges holds
   * every task at the end of a reverse path from `t`.
   */
  lemma {:induction false} ClosedSetHoldsReachable(reverse: map<int, seq<int>>, t: int, s: set<int>, p: seq<int>)
    requires forall w :: w in Successors(reverse, t) ==> w in s
    requires forall u, w :: u in s && w in Successors(reverse, u) ==> w in s
    requires |p| >= 2 && p[0] == t && IsRevPath(reverse, p)
    ensures p[|p| - 1] in s
    decreases |p|
  {
    if |p| > 2 {
      var prefix := p[..|p| - 1];
      assert IsRevPath(reverse, prefix) by {
        forall k | 0 <= k < |prefix| - 1 ensures prefix[k + 1] in Successors(reverse, prefix[k]) {
          assert prefix[k] == p[k] && prefix[k + 1] == p[k + 1];
        }
      }
      ClosedSetHoldsReachable(reverse, t, s, prefix);
      assert p[|p| - 1] in Successors(reverse, p[|p| - 2]);
    } else {
      assert p[1] in Successors(reverse, t);
      assert p[|p| - 1] == p[1];
    }
  }

  /**
   * `_downstream_block_count`: a worklist walk over the reverse edges from `t` that returns how
   * many distinct tasks depend on `t`, directly or transitively.
   */
  method DownstreamBlockCount(t: int, reverse: map<int, seq<int>>) returns (n: nat)
    ensures n == |Downstream(reverse, t)|
  {
    var seen: set<int> := {};
    var stack := Successors(reverse, t);
    WalkStarts(reverse, t);
    while stack != []
      invariant WalkInvariant(reverse, t, seen, stack)
      decreases AllTargets(reverse) - seen, |stack|
    {
      seen, stack := WalkStep(reverse, t, seen, stack);
    }
    WalkEnds(reverse, t, seen);
    n := |seen|;
  }

  /** One round of the walk: pop a task; if it is new, mark it seen and push its dependents. */
  method WalkStep(reverse: map<int, seq<int>>, t: int, seen: set<int>, stack: seq<int>)
    returns (seen': set<int>, stack': seq<int>)
    requires stack != [] && WalkInvariant(reverse, t, seen, stack)
    ensures WalkInvariant(reverse, t, seen', stack')
    ensures var u := stack[|stack| - 1];
            if u in seen then seen' == seen && stack' == stack[..|stack| - 1]
            else seen' == seen + {u} && stack' == stack[..|stack| - 1] + Successors(reverse, u)
    ensures seen' <= AllTargets(reverse)
    ensures (AllTargets(reverse) - seen' < AllTargets(reverse) - seen) || (seen' == seen && |stack'| < |stack|)
  {
    var u := stack[|stack| - 1];
    var rest := stack[..|stack| - 1];
    assert stack == rest + [u];
    WalkPops(reverse, t, seen, rest, u);
    if u !in seen {
      seen', stack' := seen + {u}, rest + Successors(reverse, u);
    } else {
      seen', stack' := seen, rest;
    }
  }

  /**
   * What the walk keeps: everything seen or pending is downstream of `t`, and every dependent of
   * `t` or of a seen task is seen or pending.
   */
  ghost predicate WalkInvariant(reverse: map<int, seq<int>>, t: int, seen: set<int>, stack: seq<int>) {
    && seen <= AllTargets(reverse)
    && (forall x :: x in stack ==> x in AllTargets(reverse) && Reaches(reverse, t, x))
    && (forall x :: x in seen ==> Reaches(reverse, t, x))
    && (forall w :: w in Successors(reverse, t) ==> w in seen || w in stack)
    && (forall u, w :: u in seen && w in Successors(reverse, u) ==> w in seen || w in stack)
  }

  lemma WalkStarts(reverse: map<int, seq<int>>, t: int)
    ensures WalkInvariant(reverse, t, {}, Successors(reverse, t))
  {
    forall w | w in Successors(reverse, t) ensures w in AllTargets(reverse) && Reaches(reverse, t, w) {
      SuccessorIsTarget(reverse, t, w);
      ReachesDirect(reverse, t, w);
    }
  }

  /** Popping `u`: a seen task is dropped, a new one is marked seen and its dependents pushed. */
  lemma WalkPops(reverse: map<int, seq<int>>, t: int, seen: set<int>, rest: seq<int>, u: int)
    requires WalkInvariant(reverse, t, seen, rest + [u])
    ensures u in seen ==> WalkInvariant(reverse, t, seen, rest)
    ensures u !in seen ==> WalkInvariant(reverse, t, seen + {u}, rest + Successors(reverse, u))
    ensures u in AllTargets(reverse)
  {
    var stack := rest + [u];
    assert u in stack;
    assert forall x :: x in stack <==> x in rest || x == u;
    var next := Successors(reverse, u);
    forall w | w in next ensures w in AllTargets(reverse) && Reaches(reverse, t, w) {
      SuccessorIsTarget(reverse, u, w);
      ReachesStep(reverse, t, u, w);
    }
    assert forall x :: x in rest + next <==> x in rest || x in next;
  }

  /** An empty worklist leaves exactly the downstream tasks seen. */
  lemma WalkEnds(reverse: map<int, seq<int>>, t: int, seen: set<int>)
    requires WalkInvariant(reverse, t, seen, [])
    ensures seen == Downstream(reverse, t)
  {
    forall x | x in Downstream(reverse, t) ensures x in seen {
      var p :| |p| >= 2 && p[0] == t && p[|p| - 1] == x && IsRevPath(reverse, p);
      ClosedSetHoldsReachable(reverse, t, seen, p);
    }
  }

  /** Whatever `t` reaches, it reaches through one of its direct dependents. */
  lemma ReachesFirstStep(reverse: map<int, seq<int>>, t: int, x: int)
    requires Reaches(reverse, t, x)
    ensures Successors(reverse, t) != []
  {
    var p :| |p| >= 2 && p[0] == t && p[|p| - 1] == x && IsRevPath(reverse, p);
    assert p[1] in Successors(reverse, p[0]);
  }

  /** A task blocks nothing exactly when no task depends on it directly. */
  lemma NoDependentsBlockNothing(reverse: map<int, seq<int>>, t: int)
    ensures Downstream(reverse, t) == {} <==> Successors(reverse, t) == []
  {
    if Successors(reverse, t) != [] {
      var w := Successors(reverse, t)[0];
      SuccessorIsTarget(reverse, t, w);
      ReachesDirect(reverse, t, w);
      assert w in Downstream(reverse, t);
    } else {
      forall x | x in Downstream(reverse, t) ensures false {
        ReachesFirstStep(reverse, t, x);
      }
    }
  }

  /** A direct dependent is counted, and so is everything that depends on it. */
  lemma DownstreamIncludesDependents(reverse: map<int, seq<int>>, t: int, u: int)
    requires u in Successors(reverse, t)
    ensures u in Downstream(reverse, t)
    ensures Downstream(reverse, u) <= Downstream(reverse, t)
  {
    SuccessorIsTarget(reverse, t, u);
    ReachesDirect(reverse, t, u);
    forall x | x in Downstream(reverse, u) ensures x in Downstream(reverse, t) {
      var p :| |p| >= 2 && p[0] == u && p[|p| - 1] == x && IsRevPath(reverse, p);
      var q := [t] + p;
      assert forall k :: 0 <= k < |p| ==> q[k + 1] == p[k];
      assert IsRevPath(reverse, q);
    }
  }

  /** A task on a cycle of dependents is counted among its own downstream tasks. */
  lemma CycleCountsStart(reverse: map<int, seq<int>>, t: int, p: seq<int>)
    requires |p| >= 2 && p[0] == t && p[|p| - 1] == t && IsRevPath(reverse, p)
    ensures t in Downstream(reverse, t)
  {
    SuccessorIsTarget(reverse, p[|p| - 2], t);
  }

  /** Only known ids are ever appended to a reverse list. */
  lemma {:induction false} ReverseListWithin(keys: seq<int>, forward: map<int, seq<int>>, d: int)
    requires forall k :: k in keys ==> k in forward
    ensures forall x :: x in ReverseList(keys, forward, d) ==> x in keys
  {
    if keys != [] {
      var init := keys[..|keys| - 1];
      ReverseListWithin(init, forward, d);
      assert forall x :: x in init ==> x in keys;
    }
  }

  /**
   * On the reverse map that `_build_graph` returns, the downstream tasks of any task are tasks of
   * the batch, so the count never exceeds the number of distinct ids.
   */
  lemma DownstreamWithinTasks(tasks: seq<NormalizedTask>, reverse: map<int, seq<int>>, t: int)
    requires reverse.Keys == IdSet(tasks)
    requires forall d :: d in reverse ==> reverse[d] == ReverseList(Ids(tasks), Forward(tasks), d)
    ensures Downstream(reverse, t) <= IdSet(tasks)
    ensures |Downstream(reverse, t)| <= |IdSet(tasks)|
  {
    forall x | x in AllTargets(reverse) ensures x in IdSet(tasks) {
      var u, w :| u in reverse && w in reverse[u] && x == w;
      ReverseListWithin(Ids(tasks), Forward(tasks), u);
    }
    SubsetCardinality(Downstream(reverse, t), IdSet(tasks));
  }

  /** The reverse map `BuildGraph` returns is, as a whole, the reverse adjacency of the batch. */
  lemma ReverseMapIsReverse(tasks: seq<NormalizedTask>, reverse: map<int, seq<int>>)
    requires reverse.Keys == IdSet(tasks)
    requires forall d :: d in reverse ==> reverse[d] == ReverseList(Ids(tasks), Forward(tasks), d)
    ensures reverse == Reverse(tasks)
  {
  }
}
