/**
 * The directed multigraph of kron: node and edge storage with incremental in/out
 * adjacency sets, cycle detection, topological sort and breadth-first path search.
 */
module KronGraph {
  import opened Options
  import opened Digraph
  import opened WorkList

  /** An identifier; the source uses UUIDs. */
  datatype Id = Uuid(serial: nat)

  /** An edge runs from `head` (source) to `tail` (target). */
  datatype Edge = Edge(head: Id, tail: Id)

  datatype Status = Done | NotFound | Exists
  datatype Color = White | Gray | Black

  /** The ids of the edges that leave, and that enter, node `n`. */
  ghost function Leaving(edges: map<Id, Edge>, n: Id): set<Id> {
    set e | e in edges && edges[e].head == n
  }

  ghost function Entering(edges: map<Id, Edge>, n: Id): set<Id> {
    set e | e in edges && edges[e].tail == n
  }

  /** The index a full rebuild gives: every node, and only nodes, with exactly its edges. */
  ghost predicate IsOutIndex(index: map<Id, set<Id>>, nodes: set<Id>, edges: map<Id, Edge>) {
    index.Keys == nodes && forall n :: n in nodes ==> index[n] == Leaving(edges, n)
  }

  ghost predicate IsInIndex(index: map<Id, set<Id>>, nodes: set<Id>, edges: map<Id, Edge>) {
    index.Keys == nodes && forall n :: n in nodes ==> index[n] == Entering(edges, n)
  }

  /** The edge relation, parallel edges merged. */
  ghost function Arcs(edges: map<Id, Edge>): set<(Id, Id)> {
    set e | e in edges :: (edges[e].head, edges[e].tail)
  }

  lemma ArcOf(edges: map<Id, Edge>, e: Id)
    requires e in edges
    ensures (edges[e].head, edges[e].tail) in Arcs(edges)
  {
  }

  /** No edge has a missing endpoint. */
  ghost predicate Anchored(nodes: set<Id>, edges: map<Id, Edge>) {
    forall e :: e in edges ==> edges[e].head in nodes && edges[e].tail in nodes
  }

  /** The index entry of endpoint `n` gains edge `e`; a missing endpoint is skipped. */
  function Insert(index: map<Id, set<Id>>, n: Id, e: Id): (r: map<Id, set<Id>>)
    ensures r.Keys == index.Keys
  {
    if n in index then index[n := index[n] + {e}] else index
  }

  function Discard(index: map<Id, set<Id>>, n: Id, e: Id): (r: map<Id, set<Id>>)
    ensures r.Keys == index.Keys
  {
    if n in index then index[n := index[n] - {e}] else index
  }

  lemma OutInsert(index: map<Id, set<Id>>, nodes: set<Id>, edges: map<Id, Edge>, e: Id, edge: Edge)
    requires IsOutIndex(index, nodes, edges) && e !in edges
    ensures IsOutIndex(Insert(index, edge.head, e), nodes, edges[e := edge])
  {
  }

  lemma InInsert(index: map<Id, set<Id>>, nodes: set<Id>, edges: map<Id, Edge>, e: Id, edge: Edge)
    requires IsInIndex(index, nodes, edges) && e !in edges
    ensures IsInIndex(Insert(index, edge.tail, e), nodes, edges[e := edge])
  {
  }

  lemma OutDiscard(index: map<Id, set<Id>>, nodes: set<Id>, edges: map<Id, Edge>, e: Id)
    requires IsOutIndex(index, nodes, edges) && e in edges
    ensures IsOutIndex(Discard(index, edges[e].head, e), nodes, edges - {e})
  {
  }

  lemma InDiscard(index: map<Id, set<Id>>, nodes: set<Id>, edges: map<Id, Edge>, e: Id)
    requires IsInIndex(index, nodes, edges) && e in edges
    ensures IsInIndex(Discard(index, edges[e].tail, e), nodes, edges - {e})
  {
  }

  /** The edges left once the incoming and then the outgoing edges of `n` are gone. */
  ghost function Without(edges: map<Id, Edge>, n: Id): map<Id, Edge> {
    map e | e in edges && edges[e].head != n && edges[e].tail != n :: edges[e]
  }

  lemma WithoutIsTwoSweeps(edges: map<Id, Edge>, once: map<Id, Edge>, n: Id)
    requires once == edges - Entering(edges, n)
    ensures once - Leaving(once, n) == Without(edges, n)
  {
  }

  lemma DropNode(out: map<Id, set<Id>>, in_: map<Id, set<Id>>, nodes: set<Id>, edges: map<Id, Edge>, n: Id)
    requires IsOutIndex(out, nodes, Without(edges, n)) && IsInIndex(in_, nodes, Without(edges, n))
    requires Anchored(nodes, edges)
    ensures IsOutIndex(out - {n}, nodes - {n}, Without(edges, n))
    ensures IsInIndex(in_ - {n}, nodes - {n}, Without(edges, n))
    ensures Anchored(nodes - {n}, Without(edges, n))
  {
  }

  /** An edge from the top of the search stack back into the stack closes a cycle. */
  lemma BackEdge(arcs: set<(Id, Id)>, path: seq<Id>, neighbor: Id)
    requires Walk(arcs, path) && neighbor in path && (path[|path| - 1], neighbor) in arcs
    ensures !Acyclic(arcs)
  {
    var k := MemberAt(neighbor, path);
    WalkCloses(arcs, path, k);
    ClosedWalkIsCycle(arcs, path[k..] + [path[k]]);
  }

  /** Gray nodes are on the active call stack, black nodes are finished, all others are white. */
  ghost predicate Colored(nodes: set<Id>, colors: map<Id, Color>, gray: set<Id>, black: set<Id>) {
    && colors.Keys == nodes && gray <= nodes && black <= nodes && gray !! black
    && forall n :: n in nodes ==> colors[n] == if n in gray then Gray else if n in black then Black else White
  }

  /** The finishing order lists each finished node once, after everything it points at. */
  ghost predicate Finishing(arcs: set<(Id, Id)>, nodes: set<Id>, finished: seq<Id>) {
    NoDuplicates(finished) && TargetsFirst(arcs, nodes, finished)
  }

  lemma FinishNode(arcs: set<(Id, Id)>, nodes: set<Id>, finished: seq<Id>, node: Id)
    requires Finishing(arcs, nodes, finished) && node !in finished
    requires forall b :: (node, b) in arcs ==> b in finished
    ensures Finishing(arcs, nodes, finished + [node])
    ensures Elems(finished + [node]) == Elems(finished) + {node}
  {
    NoDuplicatesAppend(finished, node);
    TargetsFirstAppend(arcs, nodes, finished, node);
  }

  ghost function Unseen(nodes: set<Id>, stack: seq<Id>, finished: seq<Id>): set<Id> {
    nodes - Elems(stack) - Elems(finished)
  }

  lemma EnterNode(arcs: set<(Id, Id)>, nodes: set<Id>, colors: map<Id, Color>, stack: seq<Id>, finished: seq<Id>,
                  node: Id)
    requires node in nodes && Colored(nodes, colors, Elems(stack), Elems(finished)) && colors[node] == White
    requires stack == [] || (Walk(arcs, stack) && (stack[|stack| - 1], node) in arcs)
    ensures Colored(nodes, colors[node := Gray], Elems(stack + [node]), Elems(finished)) && Walk(arcs, stack + [node])
    ensures Elems(stack + [node]) == Elems(stack) + {node} && node in Unseen(nodes, stack, finished)
  {
    ElemsAppend(stack, node);
    WalkAppend(arcs, stack, node);
  }

  lemma LeaveNode(nodes: set<Id>, colors: map<Id, Color>, stack: seq<Id>, finished: seq<Id>, node: Id)
    requires Colored(nodes, colors, Elems(stack + [node]), Elems(finished)) && node !in Elems(stack)
    ensures Colored(nodes, colors[node := Black], Elems(stack), Elems(finished + [node]))
  {
    ElemsAppend(stack, node);
    ElemsAppend(finished, node);
  }

  /** One edge of the three-colour search: a gray target closes a cycle, a white one is searched. */
  method VisitTarget(nodes: set<Id>, edges: map<Id, Edge>, outEdges: map<Id, set<Id>>, target: Id,
                     colors: map<Id, Color>, ghost path: seq<Id>, ghost finished: seq<Id>)
    returns (ok: bool, colors': map<Id, Color>, ghost finished': seq<Id>)
    requires IsOutIndex(outEdges, nodes, edges) && Anchored(nodes, edges) && target in nodes
    requires Colored(nodes, colors, Elems(path), Elems(finished)) && Finishing(Arcs(edges), nodes, finished)
    requires Walk(Arcs(edges), path) && (path[|path| - 1], target) in Arcs(edges)
    ensures !ok ==> !Acyclic(Arcs(edges))
    ensures ok ==> Colored(nodes, colors', Elems(path), Elems(finished')) && Finishing(Arcs(edges), nodes, finished')
    ensures ok ==> Elems(finished) <= Elems(finished') && target in Elems(finished')
    decreases Unseen(nodes, path, finished), 1
  {
    if colors[target] == Gray {
      BackEdge(Arcs(edges), path, target);
      return false, colors, finished;
    }
    if colors[target] == White {
      ok, colors', finished' := Visit(nodes, edges, outEdges, target, colors, path, finished);
    } else {
      ok, colors', finished' := true, colors, finished;
    }
  }

  /** The recursive search from a white node: false only if it closed a cycle. */
  method Visit(nodes: set<Id>, edges: map<Id, Edge>, outEdges: map<Id, set<Id>>, node: Id, colors: map<Id, Color>,
               ghost stack: seq<Id>, ghost finished: seq<Id>)
    returns (ok: bool, colors': map<Id, Color>, ghost finished': seq<Id>)
    requires IsOutIndex(outEdges, nodes, edges) && Anchored(nodes, edges) && node in nodes
    requires Colored(nodes, colors, Elems(stack), Elems(finished)) && colors[node] == White
    requires Finishing(Arcs(edges), nodes, finished)
    requires stack == [] || (Walk(Arcs(edges), stack) && (stack[|stack| - 1], node) in Arcs(edges))
    ensures !ok ==> !Acyclic(Arcs(edges))
    ensures ok ==> Colored(nodes, colors', Elems(stack), Elems(finished')) && Finishing(Arcs(edges), nodes, finished')
    ensures ok ==> Elems(finished) <= Elems(finished') && node in Elems(finished')
    decreases Unseen(nodes, stack, finished), 0
  {
    ghost var path := stack + [node];
    EnterNode(Arcs(edges), nodes, colors, stack, finished, node);
    colors', finished' := colors[node := Gray], finished;
    var todo := outEdges[node];
    while todo != {}
      invariant todo <= outEdges[node]
      invariant Colored(nodes, colors', Elems(path), Elems(finished')) && Finishing(Arcs(edges), nodes, finished')
      invariant Elems(finished) <= Elems(finished')
      invariant forall e :: e in outEdges[node] && e !in todo ==> edges[e].tail in Elems(finished')
    {
      var e :| e in todo;
      ArcOf(edges, e);
      assert Unseen(nodes, path, finished') < Unseen(nodes, stack, finished);
      ok, colors', finished' := VisitTarget(nodes, edges, outEdges, edges[e].tail, colors', path, finished');
      if !ok {
        return;
      }
      todo := todo - {e};
    }
    FinishNode(Arcs(edges), nodes, finished', node);
    LeaveNode(nodes, colors', stack, finished', node);
    colors', finished' := colors'[node := Black], finished' + [node];
    ok := true;
  }

  /** The edges whose head has been placed. */
  ghost function OutOf(edges: map<Id, Edge>, order: seq<Id>): set<Id> {
    set e | e in edges && edges[e].head in order
  }

  /** The incoming edges of `n` that are not consumed yet. */
  ghost function Open(edges: map<Id, Edge>, consumed: set<Id>, n: Id): set<Id> {
    set e | e in edges && edges[e].tail == n && e !in consumed
  }

  /** Each degree counts the incoming edges, with multiplicity, that are not consumed yet. */
  ghost predicate Degrees(nodes: set<Id>, edges: map<Id, Edge>, inDegree: map<Id, nat>, consumed: set<Id>) {
    inDegree.Keys == nodes && forall n :: n in nodes ==> inDegree[n] == |Open(edges, consumed, n)|
  }

  lemma ConsumeEdge(nodes: set<Id>, edges: map<Id, Edge>, inDegree: map<Id, nat>, consumed: set<Id>, e: Id)
    requires Degrees(nodes, edges, inDegree, consumed)
    requires e in edges && e !in consumed && edges[e].tail in nodes
    ensures inDegree[edges[e].tail] >= 1
    ensures Degrees(nodes, edges, inDegree[edges[e].tail := inDegree[edges[e].tail] - 1], consumed + {e})
  {
    var t := edges[e].tail;
    assert t in nodes;
    assert Open(edges, consumed, t) == Open(edges, consumed + {e}, t) + {e};
    forall n | n in nodes && n != t ensures Open(edges, consumed + {e}, n) == Open(edges, consumed, n) {
    }
  }

  /** The front of the queue has all its sources placed, so placing it keeps every source first. */
  lemma PlaceNext(nodes: set<Id>, edges: map<Id, Edge>, inDegree: map<Id, nat>, order: seq<Id>, queue: seq<Id>)
    requires queue != [] && Degrees(nodes, edges, inDegree, OutOf(edges, order)) && Listed(inDegree, order + queue)
    requires SourcesFirst(Arcs(edges), order)
    ensures queue[0] in nodes && order + queue == (order + [queue[0]]) + queue[1..]
    ensures SourcesFirst(Arcs(edges), order + [queue[0]])
    ensures OutOf(edges, order + [queue[0]]) == OutOf(edges, order) + Leaving(edges, queue[0])
    ensures OutOf(edges, order) !! Leaving(edges, queue[0])
  {
    var node, placed, listed := queue[0], OutOf(edges, order), order + queue;
    assert listed[|order|] == node;
    forall k | 0 <= k < |order| ensures order[k] != node {
      assert order[k] == listed[k];
    }
    assert node in Elems(listed);
    assert |Open(edges, placed, node)| == 0;
    forall a | (a, node) in Arcs(edges) ensures a in order {
      var e :| e in edges && edges[e].head == a && edges[e].tail == node;
      assert e !in Open(edges, placed, node);
    }
    SourcesFirstAppend(Arcs(edges), order, node);
  }

  /** When every listed node is placed on an acyclic graph, no node is left over. */
  lemma AllPlaced(nodes: set<Id>, edges: map<Id, Edge>, inDegree: map<Id, nat>, order: seq<Id>)
    requires Degrees(nodes, edges, inDegree, OutOf(edges, order)) && Listed(inDegree, order)
    requires Acyclic(Arcs(edges)) && Anchored(nodes, edges)
    ensures Elems(order) == nodes
  {
    assert Elems(order) <= nodes;
    var rest := nodes - Elems(order);
    if rest != {} {
      var x := SourceExists(Arcs(edges), rest);
      LeftOverHasSource(nodes, edges, inDegree, order, x);
    }
    forall x | x in nodes ensures x in Elems(order) {
      assert x !in rest;
    }
  }

  lemma LeftOverHasSource(nodes: set<Id>, edges: map<Id, Edge>, inDegree: map<Id, nat>, order: seq<Id>, x: Id)
    requires Degrees(nodes, edges, inDegree, OutOf(edges, order)) && Listed(inDegree, order)
    requires x in nodes && x !in order && Anchored(nodes, edges)
    ensures HasPredecessor(Arcs(edges), nodes - Elems(order), x)
  {
    var open := Open(edges, OutOf(edges, order), x);
    assert x !in Elems(order);
    assert |open| != 0;
    var e :| e in open;
    ArcOf(edges, e);
    assert edges[e].head in nodes - Elems(order);
  }

  lemma KahnStart(nodes: set<Id>, edges: map<Id, Edge>, inEdges: map<Id, set<Id>>, inDegree: map<Id, nat>)
    requires IsInIndex(inEdges, nodes, edges) && inDegree == map n | n in nodes :: |inEdges[n]|
    ensures Degrees(nodes, edges, inDegree, OutOf(edges, []))
  {
    forall n | n in nodes ensures Open(edges, OutOf(edges, []), n) == inEdges[n] {
    }
  }

  ghost function Used(consumed: set<Id>, leaving: set<Id>, todo: set<Id>): set<Id> {
    consumed + (leaving - todo)
  }

  lemma UsedStep(consumed: set<Id>, leaving: set<Id>, todo: set<Id>, e: Id)
    requires leaving !! consumed && todo <= leaving && e in todo
    ensures e !in Used(consumed, leaving, todo)
    ensures Used(consumed, leaving, todo - {e}) == Used(consumed, leaving, todo) + {e}
  {
  }

  /** Consumes the outgoing edges of a node just placed. */
  method Relax(nodes: set<Id>, edges: map<Id, Edge>, leaving: set<Id>, inDegree: map<Id, nat>, queue: seq<Id>,
               ghost placed: seq<Id>, ghost consumed: set<Id>)
    returns (inDegree': map<Id, nat>, queue': seq<Id>)
    requires leaving <= edges.Keys && leaving !! consumed && Anchored(nodes, edges)
    requires Degrees(nodes, edges, inDegree, consumed) && Listed(inDegree, placed + queue)
    ensures Degrees(nodes, edges, inDegree', consumed + leaving) && Listed(inDegree', placed + queue')
  {
    inDegree', queue' := inDegree, queue;
    var todo := leaving;
    assert Used(consumed, leaving, todo) == consumed;
    while todo != {}
      invariant todo <= leaving
      invariant Degrees(nodes, edges, inDegree', Used(consumed, leaving, todo))
      invariant Listed(inDegree', placed + queue')
    {
      var e :| e in todo;
      UsedStep(consumed, leaving, todo, e);
      ConsumeEdge(nodes, edges, inDegree', Used(consumed, leaving, todo), e);
      inDegree', queue' := LowerDegree(edges[e].tail, inDegree', queue', placed);
      todo := todo - {e};
    }
    assert Used(consumed, leaving, {}) == consumed + leaving;
  }

  /** The in-degrees before anything is placed, and the nodes without incoming edges. */
  method Sources(nodes: set<Id>, ghost edges: map<Id, Edge>, inEdges: map<Id, set<Id>>)
    returns (inDegree: map<Id, nat>, queue: seq<Id>)
    requires IsInIndex(inEdges, nodes, edges)
    ensures Degrees(nodes, edges, inDegree, OutOf(edges, [])) && Listed(inDegree, queue)
  {
    inDegree := map n | n in nodes :: |inEdges[n]|;
    queue := ListOf(set n | n in nodes && inDegree[n] == 0);
    KahnStart(nodes, edges, inEdges, inDegree);
    assert Zeros(inDegree) == set n | n in nodes && inDegree[n] == 0;
  }

  method KahnOrder(nodes: set<Id>, edges: map<Id, Edge>, outEdges: map<Id, set<Id>>, inEdges: map<Id, set<Id>>)
    returns (order: seq<Id>)
    requires IsOutIndex(outEdges, nodes, edges) && IsInIndex(inEdges, nodes, edges)
    requires Anchored(nodes, edges) && Acyclic(Arcs(edges))
    ensures NoDuplicates(order) && Elems(order) == nodes
    ensures SourcesFirst(Arcs(edges), order)
  {
    var inDegree, queue := Sources(nodes, edges, inEdges);
    order := [];
    assert order + queue == queue;
    while queue != []
      invariant Degrees(nodes, edges, inDegree, OutOf(edges, order)) && Listed(inDegree, order + queue)
      invariant SourcesFirst(Arcs(edges), order)
      decreases |nodes| - |order|
    {
      var node := queue[0];
      ListedSize(nodes, order + queue);
      PlaceNext(nodes, edges, inDegree, order, queue);
      ghost var consumed := OutOf(edges, order);
      queue, order := queue[1..], order + [node];
      inDegree, queue := Relax(nodes, edges, outEdges[node], inDegree, queue, order, consumed);
    }
    assert order + queue == order;
    AllPlaced(nodes, edges, inDegree, order);
  }

  // ------------------------------------------------------------------ breadth-first search

  /** `p` is a list of connected passing edges leading from `a` to `b`. */
  ghost predicate Route(edges: map<Id, Edge>, passing: set<Id>, p: seq<Id>, a: Id, b: Id) {
    if p == [] then a == b
    else
      var e := p[|p| - 1];
      e in edges && e in passing && edges[e].tail == b && Route(edges, passing, p[..|p| - 1], a, edges[e].head)
  }

  lemma {:induction false} RoutePrepend(edges: map<Id, Edge>, passing: set<Id>, e: Id, p: seq<Id>, b: Id)
    requires e in edges && e in passing && Route(edges, passing, p, edges[e].tail, b)
    ensures Route(edges, passing, [e] + p, edges[e].head, b)
  {
    var q := [e] + p;
    if p == [] {
      assert q[..|q| - 1] == [];
    } else {
      assert q[..|q| - 1] == [e] + p[..|p| - 1];
      RoutePrepend(edges, passing, e, p[..|p| - 1], edges[p[|p| - 1]].head);
    }
  }

  function Backwards(s: seq<Id>): seq<Id> {
    if s == [] then [] else [s[|s| - 1]] + Backwards(s[..|s| - 1])
  }

  lemma BackwardsAppend(s: seq<Id>, e: Id)
    ensures Backwards(s + [e]) == [e] + Backwards(s)
  {
    assert (s + [e])[..|s|] == s;
  }

  lemma {:induction false} BackwardsLength(s: seq<Id>)
    ensures |Backwards(s)| == |s|
  {
    if s != [] {
      BackwardsLength(s[..|s| - 1]);
    }
  }

  /** Each discovered node but the start was reached by a passing edge from a node one step nearer. */
  ghost predicate Tree(edges: map<Id, Edge>, passing: set<Id>, start: Id, dist: map<Id, nat>,
                       parent: map<Id, (Id, Id)>) {
    && start in dist && dist[start] == 0 && parent.Keys == dist.Keys - {start}
    && forall v :: v in parent ==> ParentEdge(edges, passing, dist, parent[v].0, parent[v].1, v)
  }

  ghost predicate ParentEdge(edges: map<Id, Edge>, passing: set<Id>, dist: map<Id, nat>, u: Id, e: Id, v: Id) {
    && u in dist && v in dist && dist[v] == dist[u] + 1
    && e in edges && e in passing && edges[e] == Edge(u, v)
  }

  /** Passing edges, apart from `skipped`, that leave a discovered node outside the queue lead to
      discovered nodes at most one step further. */
  ghost predicate Explored(edges: map<Id, Edge>, passing: set<Id>, dist: map<Id, nat>, queue: seq<Id>,
                           skipped: set<Id>) {
    forall e :: e in edges && e in passing && e !in skipped && edges[e].head in dist && edges[e].head !in queue
      ==> edges[e].tail in dist && dist[edges[e].tail] <= dist[edges[e].head] + 1
  }

  /** The queue is sorted by distance, from `level` on, and nothing discovered lies beyond the next level. */
  ghost predicate Frontier(dist: map<Id, nat>, queue: seq<Id>, level: nat) {
    && (forall v :: v in dist ==> dist[v] <= level + 1)
    && (forall i :: 0 <= i < |queue| ==> queue[i] in dist && level <= dist[queue[i]])
    && (forall i, j :: 0 <= i < j < |queue| ==> dist[queue[i]] <= dist[queue[j]])
  }

  /** When the queue's front is popped, every route to it is at least as long as its distance. */
  lemma {:induction false} NoShorterRoute(edges: map<Id, Edge>, passing: set<Id>, start: Id, dist: map<Id, nat>,
                                          queue: seq<Id>, level: nat, p: seq<Id>, v: Id)
    requires start in dist && dist[start] == 0 && queue != []
    requires Explored(edges, passing, dist, queue, {}) && Frontier(dist, queue, level)
    requires Route(edges, passing, p, start, v) && |p| <= dist[queue[0]]
    ensures v in dist && dist[v] <= |p|
  {
    if p != [] {
      var e := p[|p| - 1];
      var u := edges[e].head;
      NoShorterRoute(edges, passing, start, dist, queue, level, p[..|p| - 1], u);
      forall k | 0 <= k < |queue| ensures queue[k] != u {
        assert dist[queue[0]] <= dist[queue[k]];
      }
    }
  }

  /** Once the queue is empty every routed node has been discovered. */
  lemma {:induction false} AllRoutesDiscovered(edges: map<Id, Edge>, passing: set<Id>, start: Id, dist: map<Id, nat>,
                                               p: seq<Id>, v: Id)
    requires start in dist && Explored(edges, passing, dist, [], {})
    requires Route(edges, passing, p, start, v)
    ensures v in dist
  {
    if p != [] {
      AllRoutesDiscovered(edges, passing, start, dist, p[..|p| - 1], edges[p[|p| - 1]].head);
    }
  }

  lemma Discover(edges: map<Id, Edge>, passing: set<Id>, start: Id, dist: map<Id, nat>, parent: map<Id, (Id, Id)>,
                 queue: seq<Id>, skipped: set<Id>, level: nat, u: Id, e: Id, v: Id)
    requires Tree(edges, passing, start, dist, parent) && v !in dist
    requires e in edges && e in passing && edges[e] == Edge(u, v) && u in dist && dist[u] == level
    requires Explored(edges, passing, dist, queue, skipped) && Frontier(dist, queue, level)
    ensures Tree(edges, passing, start, dist[v := level + 1], parent[v := (u, e)])
    ensures Explored(edges, passing, dist[v := level + 1], queue + [v], skipped - {e})
    ensures Frontier(dist[v := level + 1], queue + [v], level)
  {
    var dist', queue', rest := dist[v := level + 1], queue + [v], skipped - {e};
    var parent' := parent[v := (u, e)];
    forall w | w in parent' ensures ParentEdge(edges, passing, dist', parent'[w].0, parent'[w].1, w)
    {
      if w != v {
        assert ParentEdge(edges, passing, dist, parent[w].0, parent[w].1, w);
      }
    }
    forall f | f in edges && f in passing && f !in rest && edges[f].head in dist' && edges[f].head !in queue'
      ensures edges[f].tail in dist' && dist'[edges[f].tail] <= dist'[edges[f].head] + 1
    {
      assert v in queue' by { assert queue'[|queue|] == v; }
      forall k | 0 <= k < |queue| ensures queue[k] != edges[f].head {
        assert queue[k] == queue'[k];
      }
    }
  }

  /** An edge that discovers nothing, because it is blocked or its target is known, can be ticked off. */
  lemma PassOver(edges: map<Id, Edge>, passing: set<Id>, dist: map<Id, nat>, queue: seq<Id>, skipped: set<Id>,
                 level: nat, e: Id)
    requires Explored(edges, passing, dist, queue, skipped) && Frontier(dist, queue, level)
    requires e in edges && edges[e].head in dist && dist[edges[e].head] == level
    requires e in passing ==> edges[e].tail in dist
    ensures Explored(edges, passing, dist, queue, skipped - {e})
  {
  }

  /** Discovery only adds: old distances stay, and every new node is queued behind the old ones. */
  ghost predicate Grown(dist: map<Id, nat>, queue: seq<Id>, dist': map<Id, nat>, queue': seq<Id>) {
    && queue <= queue' && (dist' == dist ==> queue' == queue)
    && (forall v :: v in dist ==> v in dist' && dist'[v] == dist[v])
    && (forall v :: v in dist' && v !in dist ==> v in queue')
  }

  lemma GrowOne(dist: map<Id, nat>, queue: seq<Id>, dist': map<Id, nat>, queue': seq<Id>, v: Id, d: nat)
    requires Grown(dist, queue, dist', queue') && v !in dist'
    ensures Grown(dist, queue, dist'[v := d], queue' + [v])
  {
  }

  /** Looks at one outgoing edge of the node just popped. */
  method ScanEdge(edges: map<Id, Edge>, passing: set<Id>, start: Id, current: Id, e: Id, visited: set<Id>,
                  parent: map<Id, (Id, Id)>, queue: seq<Id>, ghost dist: map<Id, nat>, ghost todo: set<Id>)
    returns (visited': set<Id>, parent': map<Id, (Id, Id)>, queue': seq<Id>, ghost dist': map<Id, nat>)
    requires e in edges && edges[e].head == current && current in dist
    requires visited == dist.Keys && Tree(edges, passing, start, dist, parent)
    requires Explored(edges, passing, dist, queue, todo) && Frontier(dist, queue, dist[current])
    ensures visited' == dist'.Keys && Tree(edges, passing, start, dist', parent')
    ensures Explored(edges, passing, dist', queue', todo - {e}) && Frontier(dist', queue', dist[current])
    ensures (dist', queue') == (dist, queue) ||
            (edges[e].tail !in dist && dist' == dist[edges[e].tail := dist[current] + 1]
             && queue' == queue + [edges[e].tail])
  {
    visited', parent', queue', dist' := visited, parent, queue, dist;
    var neighbor := edges[e].tail;
    if neighbor !in visited && e in passing {
      Discover(edges, passing, start, dist, parent, queue, todo, dist[current], current, e, neighbor);
      visited', parent' := visited + {neighbor}, parent[neighbor := (current, e)];
      queue', dist' := queue + [neighbor], dist[neighbor := dist[current] + 1];
    } else {
      PassOver(edges, passing, dist, queue, todo, dist[current], e);
    }
  }

  /** Scans the outgoing edges of the node just popped. */
  method Expand(edges: map<Id, Edge>, leaving: set<Id>, passing: set<Id>, start: Id, current: Id,
                visited: set<Id>, parent: map<Id, (Id, Id)>, queue: seq<Id>, ghost dist: map<Id, nat>)
    returns (visited': set<Id>, parent': map<Id, (Id, Id)>, queue': seq<Id>, ghost dist': map<Id, nat>)
    requires leaving <= edges.Keys && forall e :: e in leaving ==> edges[e].head == current
    requires current in dist && visited == dist.Keys && Tree(edges, passing, start, dist, parent)
    requires Explored(edges, passing, dist, queue, leaving) && Frontier(dist, queue, dist[current])
    ensures visited' == dist'.Keys && Tree(edges, passing, start, dist', parent')
    ensures Explored(edges, passing, dist', queue', {}) && Frontier(dist', queue', dist[current])
    ensures Grown(dist, queue, dist', queue') && visited' <= visited + Targets(edges, leaving)
  {
    visited', parent', queue', dist' := visited, parent, queue, dist;
    var todo := leaving;
    while todo != {}
      invariant todo <= leaving
      invariant visited' == dist'.Keys && Tree(edges, passing, start, dist', parent')
      invariant Explored(edges, passing, dist', queue', todo) && Frontier(dist', queue', dist[current])
      invariant Grown(dist, queue, dist', queue') && visited' <= visited + Targets(edges, leaving)
    {
      var e :| e in todo;
      assert edges[e].tail in Targets(edges, leaving);
      ghost var d, q := dist', queue';
      visited', parent', queue', dist' :=
        ScanEdge(edges, passing, start, current, e, visited', parent', queue', dist', todo);
      if (dist', queue') != (d, q) {
        GrowOne(dist, queue, d, q, edges[e].tail, dist[current] + 1);
      }
      todo := todo - {e};
    }
  }

  ghost function Targets(edges: map<Id, Edge>, leaving: set<Id>): set<Id> {
    set e | e in leaving && e in edges :: edges[e].tail
  }

  /** Follows parent links from `end` back to `start`, then reverses the collected edges. */
  method WalkParents(edges: map<Id, Edge>, passing: set<Id>, start: Id, end: Id, parent: map<Id, (Id, Id)>,
                     ghost dist: map<Id, nat>)
    returns (path: seq<Id>)
    requires Tree(edges, passing, start, dist, parent) && end in dist
    ensures Route(edges, passing, path, start, end) && |path| == dist[end]
  {
    var collected: seq<Id> := [];
    var node := end;
    while node in parent
      invariant node in dist && |collected| + dist[node] == dist[end]
      invariant Route(edges, passing, Backwards(collected), node, end)
      decreases dist[node]
    {
      var (parentId, e) := parent[node];
      assert ParentEdge(edges, passing, dist, parentId, e, node);
      BackwardsAppend(collected, e);
      RoutePrepend(edges, passing, e, Backwards(collected), end);
      collected, node := collected + [e], parentId;
    }
    BackwardsLength(collected);
    path := Backwards(collected);
  }

  /** Pops the front of the queue and scans its outgoing edges. */
  method PopAndExpand(nodes: set<Id>, edges: map<Id, Edge>, outEdges: map<Id, set<Id>>, passing: set<Id>, start: Id,
                      ghost end: Id,
                      visited: set<Id>, parent: map<Id, (Id, Id)>, queue: seq<Id>,
                      ghost dist: map<Id, nat>, ghost level: nat)
    returns (visited': set<Id>, parent': map<Id, (Id, Id)>, queue': seq<Id>, ghost dist': map<Id, nat>)
    requires IsOutIndex(outEdges, nodes, edges) && Anchored(nodes, edges)
    requires visited == dist.Keys && visited <= nodes && Tree(edges, passing, start, dist, parent)
    requires Explored(edges, passing, dist, queue, {}) && Frontier(dist, queue, level)
    requires queue != [] && queue[0] != end && (end in dist ==> end in queue)
    ensures visited' == dist'.Keys && visited' <= nodes && Tree(edges, passing, start, dist', parent')
    ensures Explored(edges, passing, dist', queue', {}) && queue[0] in dist && Frontier(dist', queue', dist[queue[0]])
    ensures end in dist' ==> end in queue'
    ensures nodes - visited' < nodes - visited || (visited' == visited && |queue'| < |queue|)
  {
    var current := queue[0];
    PopFront(edges, passing, dist, queue, level);
    visited', parent', queue', dist' :=
      Expand(edges, outEdges[current], passing, start, current, visited, parent, queue[1..], dist);
    if visited' == visited {
      assert dist' == dist;
    } else {
      var v :| v in visited' && v !in visited;
      assert v in nodes - visited && v !in nodes - visited';
    }
  }

  method BreadthFirst(nodes: set<Id>, edges: map<Id, Edge>, outEdges: map<Id, set<Id>>, passing: set<Id>, start: Id,
                      end: Id)
    returns (path: Option<seq<Id>>)
    requires IsOutIndex(outEdges, nodes, edges) && Anchored(nodes, edges) && start in nodes
    ensures path.Some? ==> Route(edges, passing, path.value, start, end)
    ensures path.Some? ==> forall q :: Route(edges, passing, q, start, end) ==> |path.value| <= |q|
    ensures path.None? ==> forall q :: !Route(edges, passing, q, start, end)
  {
    var queue, visited := [start], {start};
    var parent: map<Id, (Id, Id)> := map[];
    ghost var dist: map<Id, nat> := map[start := 0];
    ghost var level: nat := 0;
    while queue != []
      invariant visited == dist.Keys && visited <= nodes && Tree(edges, passing, start, dist, parent)
      invariant Explored(edges, passing, dist, queue, {}) && Frontier(dist, queue, level)
      invariant end in dist ==> end in queue
      decreases nodes - visited, |queue|
    {
      if queue[0] == end {
        var found := WalkParents(edges, passing, start, end, parent, dist);
        FrontIsShortest(edges, passing, start, dist, queue, level);
        return Some(found);
      }
      ghost var next := dist[queue[0]];
      visited, parent, queue, dist :=
        PopAndExpand(nodes, edges, outEdges, passing, start, end, visited, parent, queue, dist, level);
      level := next;
    }
    NoRoute(edges, passing, start, dist, end);
    return None;
  }

  lemma FrontIsShortest(edges: map<Id, Edge>, passing: set<Id>, start: Id, dist: map<Id, nat>, queue: seq<Id>,
                        level: nat)
    requires start in dist && dist[start] == 0 && queue != []
    requires Explored(edges, passing, dist, queue, {}) && Frontier(dist, queue, level)
    ensures forall q :: Route(edges, passing, q, start, queue[0]) ==> dist[queue[0]] <= |q|
  {
    forall q | Route(edges, passing, q, start, queue[0]) ensures dist[queue[0]] <= |q| {
      if |q| <= dist[queue[0]] {
        NoShorterRoute(edges, passing, start, dist, queue, level, q, queue[0]);
      }
    }
  }

  lemma NoRoute(edges: map<Id, Edge>, passing: set<Id>, start: Id, dist: map<Id, nat>, end: Id)
    requires start in dist && Explored(edges, passing, dist, [], {}) && end !in dist
    ensures forall q :: !Route(edges, passing, q, start, end)
  {
    forall q ensures !Route(edges, passing, q, start, end) {
      if Route(edges, passing, q, start, end) {
        AllRoutesDiscovered(edges, passing, start, dist, q, end);
      }
    }
  }

  lemma PopFront(edges: map<Id, Edge>, passing: set<Id>, dist: map<Id, nat>, queue: seq<Id>, level: nat)
    requires queue != [] && Explored(edges, passing, dist, queue, {}) && Frontier(dist, queue, level)
    ensures Explored(edges, passing, dist, queue[1..], Leaving(edges, queue[0]))
    ensures Frontier(dist, queue[1..], dist[queue[0]])
    ensures forall v :: v in queue && v != queue[0] ==> v in queue[1..]
  {
    forall v | v in queue && v != queue[0] ensures v in queue[1..] {
      var k := MemberAt(v, queue);
      assert queue[1..][k - 1] == v;
    }
    assert forall i :: 0 <= i < |queue[1..]| ==> queue[1..][i] == queue[i + 1];
  }

  class Graph {
    var nodes: set<Id>
    var edges: map<Id, Edge>
    var outEdges: map<Id, set<Id>>
    var inEdges: map<Id, set<Id>>

    /** Both indexes equal a full rebuild, and no edge has a missing endpoint. */
    ghost predicate Valid()
      reads this
    {
      && IsOutIndex(outEdges, nodes, edges)
      && IsInIndex(inEdges, nodes, edges)
      && Anchored(nodes, edges)
    }

    ghost function Relation(): set<(Id, Id)>
      reads this
    {
      Arcs(edges)
    }

    constructor ()
      ensures Valid() && nodes == {} && edges == map[]
    {
      nodes, edges, outEdges, inEdges := {}, map[], map[], map[];
    }

    /** Recomputes both indexes from scratch; an edge with a missing endpoint is skipped on that side. */
    method RebuildAdjacency()
      modifies `outEdges, `inEdges
      ensures IsOutIndex(outEdges, nodes, edges) && IsInIndex(inEdges, nodes, edges)
    {
      outEdges, inEdges := map n | n in nodes :: {}, map n | n in nodes :: {};
      var todo := edges.Keys;
      while todo != {}
        invariant todo <= edges.Keys
        invariant IsOutIndex(outEdges, nodes, edges - todo) && IsInIndex(inEdges, nodes, edges - todo)
      {
        var e :| e in todo;
        var edge := edges[e];
        OutInsert(outEdges, nodes, edges - todo, e, edge);
        InInsert(inEdges, nodes, edges - todo, e, edge);
        outEdges := Insert(outEdges, edge.head, e);
        inEdges := Insert(inEdges, edge.tail, e);
        assert edges - (todo - {e}) == (edges - todo)[e := edge];
        todo := todo - {e};
      }
      assert edges - {} == edges;
    }

    method AddNode(n: Id) returns (status: Status)
      requires Valid()
      modifies this
      ensures Valid() && edges == old(edges)
      ensures status == (if n in old(nodes) then Exists else Done)
      ensures nodes == old(nodes) + {n}
    {
      if n in nodes {
        return Exists;
      }
      nodes := nodes + {n};
      outEdges := outEdges[n := {}];
      inEdges := inEdges[n := {}];
      assert IsOutIndex(outEdges, nodes, edges) && IsInIndex(inEdges, nodes, edges);
      return Done;
    }

    method AddEdge(e: Id, edge: Edge) returns (status: Status)
      requires Valid()
      modifies this
      ensures Valid() && nodes == old(nodes)
      ensures status == if edge.head !in nodes || edge.tail !in nodes then NotFound
                        else if e in old(edges) then Exists else Done
      ensures edges == if status == Done then old(edges)[e := edge] else old(edges)
    {
      if edge.head !in nodes || edge.tail !in nodes {
        return NotFound;
      }
      if e in edges {
        return Exists;
      }
      OutInsert(outEdges, nodes, edges, e, edge);
      InInsert(inEdges, nodes, edges, e, edge);
      edges := edges[e := edge];
      outEdges := Insert(outEdges, edge.head, e);
      inEdges := Insert(inEdges, edge.tail, e);
      return Done;
    }

    method RemoveEdge(e: Id) returns (status: Status)
      requires Valid()
      modifies this
      ensures Valid() && nodes == old(nodes)
      ensures status == (if e in old(edges) then Done else NotFound)
      ensures edges == old(edges) - {e}
    {
      if e !in edges {
        assert edges == edges - {e};
        return NotFound;
      }
      var edge := edges[e];
      OutDiscard(outEdges, nodes, edges, e);
      InDiscard(inEdges, nodes, edges, e);
      outEdges := Discard(outEdges, edge.head, e);
      inEdges := Discard(inEdges, edge.tail, e);
      edges := edges - {e};
      return Done;
    }

    /** Removes every edge of `doomed`, one at a time. */
    method RemoveEdges(doomed: set<Id>)
      requires Valid() && doomed <= edges.Keys
      modifies this
      ensures Valid() && nodes == old(nodes) && edges == old(edges) - doomed
    {
      var todo := doomed;
      while todo != {}
        invariant Valid() && nodes == old(nodes)
        invariant todo <= doomed && edges == old(edges) - (doomed - todo)
      {
        var e :| e in todo;
        var _ := RemoveEdge(e);
        todo := todo - {e};
      }
      assert edges == old(edges) - doomed;
    }

    /** Removes a node with its incoming, then its outgoing edges; a self-loop goes with the first group. */
    method RemoveNode(n: Id) returns (status: Status)
      requires Valid()
      modifies this
      ensures Valid()
      ensures status == (if n in old(nodes) then Done else NotFound)
      ensures nodes == old(nodes) - {n}
      ensures edges == Without(old(edges), n)
    {
      if n !in nodes {
        assert edges == Without(edges, n);
        return NotFound;
      }
      RemoveEdges(inEdges[n]);
      WithoutIsTwoSweeps(old(edges), edges, n);
      RemoveEdges(outEdges[n]);
      DropNode(outEdges, inEdges, nodes, old(edges), n);
      inEdges := inEdges - {n};
      outEdges := outEdges - {n};
      nodes := nodes - {n};
      return Done;
    }

    // ---------------------------------------------------------------- cycle detection

    /** Three-colour depth-first search: true exactly when no node reaches itself by one or more edges. */
    method IsAcyclic() returns (ok: bool)
      requires Valid()
      ensures ok <==> Acyclic(Relation())
    {
      var colors := map n | n in nodes :: White;
      ghost var finished: seq<Id> := [];
      var todo := nodes;
      while todo != {}
        invariant todo <= nodes
        invariant Colored(nodes, colors, Elems([]), Elems(finished))
        invariant Finishing(Relation(), nodes, finished)
        invariant nodes - todo <= Elems(finished)
      {
        var n :| n in todo;
        if colors[n] == White {
          ok, colors, finished := Visit(nodes, edges, outEdges, n, colors, [], finished);
          if !ok {
            return;
          }
        }
        todo := todo - {n};
      }
      TargetsFirstAcyclic(Relation(), nodes, finished);
      ok := true;
    }

    // ---------------------------------------------------------------- topological sort

    /** Kahn's algorithm behind the cycle check: refuses exactly the cyclic graphs, otherwise lists
        every node once with the head of each edge, parallel edges included, before its tail. */
    method TopologicalSort() returns (result: Option<seq<Id>>)
      requires Valid()
      ensures result.Some? <==> Acyclic(Relation())
      ensures result.Some? ==> NoDuplicates(result.value) && Elems(result.value) == nodes
      ensures result.Some? ==> SourcesFirst(Relation(), result.value)
    {
      var ok := IsAcyclic();
      if !ok {
        return None;
      }
      var order := KahnOrder(nodes, edges, outEdges, inEdges);
      return Some(order);
    }

    // ---------------------------------------------------------------- path finding

    /** Breadth-first search: a shortest list of connected passing edges from `start` to `end`, or
        nothing exactly when there is none. `failing` holds the edges whose condition is false. */
    method FindPath(start: Id, end: Id, checkConditions: bool, failing: set<Id>)
      returns (status: Status, path: Option<seq<Id>>)
      requires Valid()
      ensures status == if start in nodes && end in nodes then Done else NotFound
      ensures var passing := if checkConditions then edges.Keys - failing else edges.Keys;
        && (path.Some? ==> Route(edges, passing, path.value, start, end))
        && (path.Some? ==> forall q :: Route(edges, passing, q, start, end) ==> |path.value| <= |q|)
        && (path.None? && status == Done ==> forall q :: !Route(edges, passing, q, start, end))
    {
      if start !in nodes || end !in nodes {
        return NotFound, None;
      }
      var passing := if checkConditions then edges.Keys - failing else edges.Keys;
      path := BreadthFirst(nodes, edges, outEdges, passing, start, end);
      status := Done;
    }
  }
}
