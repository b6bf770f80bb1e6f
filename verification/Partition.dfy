/** The task DAG check of a partition document: duplicate ids, unknown dependencies, and the
    three-colour depth-first search that looks for a dependency cycle. */
module Partition {
  import opened Core

  type TaskId = string

  datatype Task = Task(id: TaskId, dependsOn: seq<TaskId>)

  /** Task id to the ids it depends on. */
  type Graph = map<TaskId, seq<TaskId>>

  datatype PartitionError =
    | DuplicateTaskId(ids: set<TaskId>)
    | UnknownDependency(task: TaskId, unknown: multiset<TaskId>)
    | DependencyCycle(path: seq<TaskId>)

  // ---------------------------------------------------------------- paths and orders

  predicate Edge(g: Graph, a: TaskId, b: TaskId) {
    a in g && b in g[a]
  }

  ghost predicate Walk(g: Graph, p: seq<TaskId>) {
    forall i :: 0 <= i < |p| - 1 ==> Edge(g, p[i], p[i + 1])
  }

  ghost predicate ClosedWalk(g: Graph, p: seq<TaskId>) {
    |p| >= 2 && p[0] == p[|p| - 1] && Walk(g, p)
  }

  ghost predicate Cyclic(g: Graph) {
    exists p :: ClosedWalk(g, p)
  }

  ghost predicate Distinct(s: seq<TaskId>) {
    forall i, j :: 0 <= i < j < |s| ==> s[i] != s[j]
  }

  /** A closed walk that visits no node twice, apart from returning to its start. */
  ghost predicate SimpleCycle(g: Graph, p: seq<TaskId>) {
    ClosedWalk(g, p) && Distinct(p[..|p| - 1])
  }

  ghost predicate DependenciesKnown(g: Graph) {
    forall a, b :: Edge(g, a, b) ==> b in g
  }

  /** Every listed node comes after all its dependencies. */
  ghost predicate DependenciesFirst(g: Graph, order: seq<TaskId>) {
    forall i, d :: 0 <= i < |order| && Edge(g, order[i], d) ==> d in order[..i]
  }

  ghost predicate TopologicalOrder(g: Graph, order: seq<TaskId>) {
    && Distinct(order)
    && (forall n :: n in order <==> n in g)
    && DependenciesFirst(g, order)
  }

  /** Along a walk the position in a topological order can only go down. */
  lemma {:induction false} WalkDescends(g: Graph, order: seq<TaskId>, p: seq<TaskId>, i: nat, j: nat)
    requires Distinct(order) && DependenciesFirst(g, order) && Walk(g, p)
    requires i < |order| && 0 < |p| && p[0] == order[i]
    requires j < |p|
    ensures exists k :: 0 <= k <= i && (j > 0 ==> k < i) && order[k] == p[j]
  {
    if j > 0 {
      WalkDescends(g, order, p, i, j - 1);
      var k :| 0 <= k <= i && order[k] == p[j - 1];
      assert Edge(g, p[j - 1], p[j - 1 + 1]);
      assert p[j] in order[..k];
      var m :| 0 <= m < k && order[m] == p[j];
    }
  }

  /** A graph with a topological order has no cycle. */
  lemma {:induction false} OrderedIsAcyclic(g: Graph, order: seq<TaskId>)
    requires TopologicalOrder(g, order)
    ensures !Cyclic(g)
  {
    if p :| ClosedWalk(g, p) {
      assert Edge(g, p[0], p[0 + 1]);
      var i :| 0 <= i < |order| && order[i] == p[0];
      WalkDescends(g, order, p, i, |p| - 1);
    }
  }

  // ---------------------------------------------------------------- the search

  datatype Color = White | Gray | Black

  function WhiteNodes(color: map<TaskId, Color>): set<TaskId> {
    set n | n in color && color[n] == White
  }

  /** `list.index`: the first position of `x`. */
  function IndexOf(s: seq<TaskId>, x: TaskId): (i: nat)
    requires x in s
    ensures i < |s| && s[i] == x && x !in s[..i]
  {
    if s[0] == x then 0
    else
      assert s == [s[0]] + s[1..];
      var j := IndexOf(s[1..], x);
      assert s[..j + 1] == [s[0]] + s[1..][..j];
      j + 1
  }

  /** The top of a simple walk is taken off. */
  lemma PopKeeps(g: Graph, stack: seq<TaskId>)
    requires stack != [] && Distinct(stack) && Walk(g, stack)
    ensures var top, rest := stack[|stack| - 1], stack[..|stack| - 1];
      Distinct(rest) && Walk(g, rest) && forall n :: n in rest <==> n in stack && n != top
  {
    var top, rest := stack[|stack| - 1], stack[..|stack| - 1];
    assert stack == rest + [top];
  }

  /** A node whose dependencies are all finished finishes. */
  lemma FinishKeeps(g: Graph, finished: seq<TaskId>, node: TaskId)
    requires Distinct(finished) && DependenciesFirst(g, finished) && node !in finished
    requires forall d :: Edge(g, node, d) ==> d in finished
    ensures Distinct(finished + [node]) && DependenciesFirst(g, finished + [node])
  {
    var longer := finished + [node];
    forall i, d | 0 <= i < |longer| && Edge(g, longer[i], d)
      ensures d in longer[..i]
    {
      assert longer[..i] == finished[..i];
      assert finished[..|finished|] == finished;
    }
  }

  /** The colour map and the explicit stack that the recursive visits share. `finished` lists the
      nodes in the order they turned black. */
  class CycleSearch {
    const graph: Graph
    var color: map<TaskId, Color>
    var stack: seq<TaskId>
    ghost var finished: seq<TaskId>

    constructor (graph: Graph)
      ensures this.graph == graph && stack == [] && finished == []
      ensures color == map n | n in graph :: White
    {
      this.graph := graph;
      color := map n | n in graph :: White;
      stack := [];
      finished := [];
    }

    ghost predicate Valid()
      reads this
    {
      && color.Keys == graph.Keys
      && DependenciesKnown(graph)
      // the gray nodes are exactly the stack, which is a simple walk
      && (forall n :: n in stack <==> n in color && color[n] == Gray)
      && Distinct(stack)
      && Walk(graph, stack)
      // the black nodes are exactly the finished ones, dependencies first
      && (forall n :: n in finished <==> n in color && color[n] == Black)
      && Distinct(finished)
      && DependenciesFirst(graph, finished)
    }

    /** Turn a white node gray and push it. */
    method Enter(node: TaskId)
      requires Valid() && node in color && color[node] == White
      requires stack != [] ==> Edge(graph, stack[|stack| - 1], node)
      modifies this`color, this`stack
      ensures Valid() && stack == old(stack) + [node]
      ensures WhiteNodes(color) == old(WhiteNodes(color)) - {node} && node in old(WhiteNodes(color))
    {
      color := color[node := Gray];
      stack := stack + [node];
    }

    /** Pop the top node and turn it black; its dependencies are all finished. */
    method Leave(node: TaskId)
      requires Valid() && stack != [] && stack[|stack| - 1] == node
      requires forall d :: Edge(graph, node, d) ==> d in finished
      modifies this`color, this`stack, this`finished
      ensures Valid() && stack == old(stack)[..|old(stack)| - 1] && color[node] == Black
      ensures finished == old(finished) + [node]
      ensures WhiteNodes(color) == old(WhiteNodes(color))
    {
      assert node in stack && color[node] == Gray;
      PopKeeps(graph, stack);
      FinishKeeps(graph, finished, node);
      hide Distinct, Walk, DependenciesFirst, DependenciesKnown, Edge;
      stack := stack[..|stack| - 1];
      color := color[node := Black];
      finished := finished + [node];
    }

    /** Some(path) is the raised cycle error; None is a normal return. */
    method Visit(node: TaskId) returns (raised: Option<seq<TaskId>>)
      requires Valid() && node in color && color[node] == White
      requires stack != [] ==> Edge(graph, stack[|stack| - 1], node)
      modifies this`color, this`stack, this`finished
      ensures raised.Some? ==> SimpleCycle(graph, raised.value)
      ensures raised.None? ==>
        && Valid() && stack == old(stack) && color[node] == Black
        && old(finished) <= finished
      ensures WhiteNodes(color) <= old(WhiteNodes(color))
      decreases WhiteNodes(color)
    {
      hide Distinct, DependenciesFirst, Walk;
      Enter(node);
      var deps := graph[node];
      var i := 0;
      while i < |deps|
        invariant 0 <= i <= |deps|
        invariant Valid() && stack == old(stack) + [node]
        invariant old(finished) <= finished
        invariant WhiteNodes(color) < old(WhiteNodes(color))
        invariant forall j :: 0 <= j < i ==> deps[j] in finished
      {
        var dep := deps[i];
        assert Edge(graph, node, dep);
        if color[dep] == Gray {
          var start := IndexOf(stack, dep);
          StackCycle(graph, stack, start);
          return Some(stack[start..] + [dep]);
        }
        if color[dep] == White {
          raised := Visit(dep);
          if raised.Some? {
            return;
          }
        }
        i := i + 1;
      }
      Leave(node);
      assert stack == old(stack);
      return None;
    }
  }

  /** The end of the stack, from the node met again, is a cycle of the graph. */
  lemma StackCycle(g: Graph, stack: seq<TaskId>, start: nat)
    requires start < |stack| && Distinct(stack) && Walk(g, stack)
    requires Edge(g, stack[|stack| - 1], stack[start])
    ensures SimpleCycle(g, stack[start..] + [stack[start]])
  {
    var cycle := stack[start..] + [stack[start]];
    forall k | 0 <= k < |cycle| - 1
      ensures Edge(g, cycle[k], cycle[k + 1])
    {
      if k < |cycle| - 2 {
        assert Edge(g, stack[start + k], stack[start + k + 1]);
      }
    }
    assert cycle[..|cycle| - 1] == stack[start..];
  }

  /** Raises the error exactly when the graph has a cycle, and names a real one; otherwise the
      order in which nodes turned black lists every node once, dependencies first. */
  method AssertAcyclic(graph: Graph, nodes: seq<TaskId>) returns (raised: Option<seq<TaskId>>, ghost order: seq<TaskId>)
    requires DependenciesKnown(graph)
    requires forall n :: n in nodes <==> n in graph
    ensures raised.Some? <==> Cyclic(graph)
    ensures raised.Some? ==> SimpleCycle(graph, raised.value)
    ensures raised.None? ==> TopologicalOrder(graph, order)
  {
    var search := new CycleSearch(graph);
    order := [];
    var i := 0;
    while i < |nodes|
      invariant 0 <= i <= |nodes|
      invariant fresh(search) && search.graph == graph && search.Valid() && search.stack == []
      invariant forall j :: 0 <= j < i ==> nodes[j] in search.finished
    {
      if search.color[nodes[i]] == White {
        raised := search.Visit(nodes[i]);
        if raised.Some? {
          return;
        }
      }
      i := i + 1;
    }
    order := search.finished;
    OrderedIsAcyclic(graph, order);
    return None, order;
  }

  // ---------------------------------------------------------------- the whole check

  function Ids(tasks: seq<Task>): (ids: seq<TaskId>)
    ensures |ids| == |tasks| && forall i :: 0 <= i < |tasks| ==> ids[i] == tasks[i].id
  {
    seq(|tasks|, i requires 0 <= i < |tasks| => tasks[i].id)
  }

  /** The ids that occur at two different positions. */
  ghost function Repeated(ids: seq<TaskId>): set<TaskId> {
    set i, j | 0 <= i < j < |ids| && ids[i] == ids[j] :: ids[j]
  }

  /** The dependencies of one task that no task declares, with multiplicity. */
  function Unknown(deps: seq<TaskId>, declared: set<TaskId>): (u: multiset<TaskId>)
    ensures forall d :: u[d] == if d in declared then 0 else multiset(deps)[d]
  {
    if deps == [] then multiset{}
    else
      assert deps == deps[..|deps| - 1] + [deps[|deps| - 1]];
      var last := deps[|deps| - 1];
      var rest := Unknown(deps[..|deps| - 1], declared);
      if last in declared then rest else rest + multiset{last}
  }

  /** `{task.id: task.depends_on for task in tasks}`; a later task wins. */
  function DependencyGraph(tasks: seq<Task>): Graph {
    if tasks == [] then map[]
    else
      var last := |tasks| - 1;
      DependencyGraph(tasks[..last])[tasks[last].id := tasks[last].dependsOn]
  }

  /** The first task that has undeclared dependencies, with those dependencies. */
  ghost predicate FirstUnknown(tasks: seq<Task>, task: TaskId, unknown: multiset<TaskId>) {
    var declared := set n | n in Ids(tasks);
    exists i :: 0 <= i < |tasks| && tasks[i].id == task
      && Unknown(tasks[i].dependsOn, declared) == unknown != multiset{}
      && forall j :: 0 <= j < i ==> Unknown(tasks[j].dependsOn, declared) == multiset{}
  }

  method FindRepeated(ids: seq<TaskId>) returns (duplicates: set<TaskId>)
    ensures duplicates == Repeated(ids)
  {
    var seen: set<TaskId> := {};
    duplicates := {};
    for i := 0 to |ids|
      invariant forall n :: n in seen <==> n in ids[..i]
      invariant duplicates == Repeated(ids[..i])
    {
      if ids[i] in seen {
        duplicates := duplicates + {ids[i]};
      }
      seen := seen + {ids[i]};
      RepeatedStep(ids, i);
    }
    assert ids[..|ids|] == ids;
  }

  method FindUnknown(tasks: seq<Task>) returns (found: Option<(TaskId, multiset<TaskId>)>)
    ensures found.None? <==> AllDeclared(tasks)
    ensures found.Some? ==> FirstUnknown(tasks, found.value.0, found.value.1)
  {
    hide Unknown;
    var idSet := set n | n in Ids(tasks);
    for i := 0 to |tasks|
      invariant forall j :: 0 <= j < i ==> Unknown(tasks[j].dependsOn, idSet) == multiset{}
    {
      var unknown := Unknown(tasks[i].dependsOn, idSet);
      if unknown != multiset{} {
        UndeclaredMeaning(tasks[i].dependsOn, idSet);
        return Some((tasks[i].id, unknown));
      }
    }
    forall i | 0 <= i < |tasks| ensures forall d :: d in tasks[i].dependsOn ==> d in Ids(tasks) {
      UndeclaredMeaning(tasks[i].dependsOn, idSet);
    }
    return None;
  }

  /** Nothing is unknown exactly when every dependency is declared. */
  lemma UndeclaredMeaning(deps: seq<TaskId>, declared: set<TaskId>)
    ensures Unknown(deps, declared) == multiset{} <==> forall d :: d in deps ==> d in declared
  {
    if Unknown(deps, declared) != multiset{} {
      var d :| d in Unknown(deps, declared);
      assert d in multiset(deps);
    }
    forall d | d in deps && d !in declared ensures d in Unknown(deps, declared) {
      assert d in multiset(deps);
    }
  }

  /** A plan is accepted exactly when its ids are distinct, every dependency is declared and the
      dependency graph has no cycle; each refusal names its offender. An accepted plan has an order
      that lists every task once, dependencies first. */
  method ValidateDag(tasks: seq<Task>) returns (r: Result<(), PartitionError>, ghost order: seq<TaskId>)
    ensures r.Ok? <==>
      Distinct(Ids(tasks)) && AllDeclared(tasks) && !Cyclic(DependencyGraph(tasks))
    ensures r.Ok? ==> |order| == |tasks| && multiset(order) == multiset(Ids(tasks))
    ensures r.Ok? ==> forall i, d :: 0 <= i < |tasks| && d in tasks[i].dependsOn ==> Before(order, d, tasks[i].id)
    ensures r.Err? && r.error.DuplicateTaskId? ==> r.error.ids == Repeated(Ids(tasks)) != {}
    ensures r.Err? && r.error.UnknownDependency? ==> FirstUnknown(tasks, r.error.task, r.error.unknown)
    ensures r.Err? && r.error.DependencyCycle? ==> SimpleCycle(DependencyGraph(tasks), r.error.path)
  {
    order := [];
    var ids := Ids(tasks);
    var duplicates := FindRepeated(ids);
    NoneRepeated(ids);
    if duplicates != {} {
      return Err(DuplicateTaskId(duplicates)), order;
    }
    var unknown := FindUnknown(tasks);
    if unknown.Some? {
      return Err(UnknownDependency(unknown.value.0, unknown.value.1)), order;
    }
    GraphOfTasks(tasks);
    var raised;
    raised, order := AssertAcyclic(DependencyGraph(tasks), ids);
    if raised.Some? {
      return Err(DependencyCycle(raised.value)), order;
    }
    SameElements(order, ids);
    forall i | 0 <= i < |tasks| {
      GraphOfTask(tasks, i);
    }
    OrderOfTasks(tasks, DependencyGraph(tasks), order);
    return Ok(()), order;
  }

  lemma NoneRepeated(ids: seq<TaskId>)
    ensures Repeated(ids) == {} <==> Distinct(ids)
  {
    if i, j :| 0 <= i < j < |ids| && ids[i] == ids[j] {
      assert ids[j] in Repeated(ids);
    }
  }

  lemma RepeatedStep(ids: seq<TaskId>, n: nat)
    requires n < |ids|
    ensures Repeated(ids[..n + 1]) == Repeated(ids[..n]) + if ids[n] in ids[..n] then {ids[n]} else {}
  {
    var longer, shorter := ids[..n + 1], ids[..n];
    forall x | x in Repeated(shorter) ensures x in Repeated(longer) {
      var i, j :| 0 <= i < j < |shorter| && shorter[i] == shorter[j] && shorter[j] == x;
      assert longer[i] == longer[j] == x;
    }
    if ids[n] in shorter {
      var i :| 0 <= i < n && shorter[i] == ids[n];
      assert longer[i] == longer[n];
    }
    forall x | x in Repeated(longer) ensures x in Repeated(shorter) || (x == ids[n] && x in shorter) {
      var i, j :| 0 <= i < j < |longer| && longer[i] == longer[j] && longer[j] == x;
      assert shorter[i] == x;
      if j < n {
        assert shorter[j] == x;
      }
    }
  }

  lemma {:induction false} GraphNodes(tasks: seq<Task>, n: TaskId)
    ensures n in DependencyGraph(tasks) <==> n in Ids(tasks)
  {
    if tasks != [] {
      var last := |tasks| - 1;
      GraphNodes(tasks[..last], n);
      assert Ids(tasks) == Ids(tasks[..last]) + [tasks[last].id];
    }
  }

  lemma {:induction false} GraphOfTask(tasks: seq<Task>, i: nat)
    requires Distinct(Ids(tasks)) && i < |tasks|
    ensures tasks[i].id in DependencyGraph(tasks)
    ensures DependencyGraph(tasks)[tasks[i].id] == tasks[i].dependsOn
  {
    var last := |tasks| - 1;
    if i < last {
      assert Ids(tasks[..last]) == Ids(tasks)[..last];
      GraphOfTask(tasks[..last], i);
      assert Ids(tasks)[i] != Ids(tasks)[last];
    }
  }

  ghost predicate AllDeclared(tasks: seq<Task>) {
    forall i, d :: 0 <= i < |tasks| && d in tasks[i].dependsOn ==> d in Ids(tasks)
  }

  lemma EdgeOfTask(tasks: seq<Task>, a: TaskId, b: TaskId) returns (i: nat)
    requires Distinct(Ids(tasks)) && Edge(DependencyGraph(tasks), a, b)
    ensures i < |tasks| && tasks[i].id == a && b in tasks[i].dependsOn
  {
    GraphNodes(tasks, a);
    i :| i < |tasks| && Ids(tasks)[i] == a;
    GraphOfTask(tasks, i);
  }

  lemma GraphOfTasks(tasks: seq<Task>)
    requires Distinct(Ids(tasks)) && AllDeclared(tasks)
    ensures DependenciesKnown(DependencyGraph(tasks))
    ensures forall n :: n in Ids(tasks) <==> n in DependencyGraph(tasks)
  {
    var g := DependencyGraph(tasks);
    forall n ensures n in Ids(tasks) <==> n in g {
      GraphNodes(tasks, n);
    }
    forall a, b | Edge(g, a, b) ensures b in g {
      var i := EdgeOfTask(tasks, a, b);
      GraphNodes(tasks, b);
    }
  }

  ghost predicate Before(order: seq<TaskId>, a: TaskId, b: TaskId) {
    exists j, k :: 0 <= j < k < |order| && order[j] == a && order[k] == b
  }

  lemma EdgeIsBefore(g: Graph, order: seq<TaskId>, a: TaskId, b: TaskId)
    requires TopologicalOrder(g, order) && Edge(g, a, b)
    ensures Before(order, b, a)
  {
    assert a in order;
    var k :| 0 <= k < |order| && order[k] == a;
    assert b in order[..k];
    var j :| 0 <= j < k && order[..k][j] == b;
    assert order[j] == b;
  }

  /** A topological order of the plan's graph runs every task after all its dependencies. */
  lemma OrderOfTasks(tasks: seq<Task>, g: Graph, order: seq<TaskId>)
    requires TopologicalOrder(g, order)
    requires forall i :: 0 <= i < |tasks| ==> tasks[i].id in g && g[tasks[i].id] == tasks[i].dependsOn
    ensures forall i, d :: 0 <= i < |tasks| && d in tasks[i].dependsOn ==> Before(order, d, tasks[i].id)
  {
    forall i, d | 0 <= i < |tasks| && d in tasks[i].dependsOn
      ensures Before(order, d, tasks[i].id)
    {
      EdgeIsBefore(g, order, tasks[i].id, d);
    }
  }

  /** Dropping the one occurrence of `x` leaves a sequence without repetition and without `x`. */
  lemma DropOne(s: seq<TaskId>, i: nat) returns (rest: seq<TaskId>)
    requires Distinct(s) && i < |s|
    ensures rest == s[..i] + s[i + 1..] && Distinct(rest)
    ensures forall x :: x in rest <==> x in s && x != s[i]
    ensures multiset(s) == multiset(rest) + multiset{s[i]}
  {
    rest := s[..i] + s[i + 1..];
    assert s == s[..i] + [s[i]] + s[i + 1..];
    forall x ensures x in rest <==> x in s && x != s[i] {
      if x in rest {
        var k :| 0 <= k < |rest| && rest[k] == x;
        assert x == s[if k < i then k else k + 1];
      }
    }
  }

  lemma {:induction false} SameElements(a: seq<TaskId>, b: seq<TaskId>)
    requires Distinct(a) && Distinct(b) && forall x :: x in a <==> x in b
    ensures |a| == |b| && multiset(a) == multiset(b)
  {
    if a != [] || b != [] {
      var x := if a != [] then a[0] else b[0];
      assert x in a && x in b;
      var i :| 0 <= i < |a| && a[i] == x;
      var j :| 0 <= j < |b| && b[j] == x;
      var a' := DropOne(a, i);
      var b' := DropOne(b, j);
      SameElements(a', b');
    }
  }
}
