/**
 * The resolver's phase ordering: Kahn's algorithm over the phase references of a workflow, and the
 * depth-first search that names a cycle when the ordering fails.
 */
module Resolver {
  import opened Options
  import opened CharterAst
  import opened Digraph
  import opened WorkList

  /** The ordered phases, or the tuple reported with the cycle error. */
  datatype SortResult = Sorted(order: seq<string>) | Cyclic(cycle: seq<string>)

  // ------------------------------------------------------------------ references

  /** The references of one phase to known phases, as (dependency, dependent) pairs in source order. */
  ghost function RefsOf(names: set<string>, phase: string, requires_: seq<Require>): seq<(string, string)> {
    if requires_ == [] then []
    else
      RefsOf(names, phase, requires_[..|requires_| - 1]) + RefOf(names, phase, requires_[|requires_| - 1])
  }

  ghost function RefOf(names: set<string>, phase: string, req: Require): seq<(string, string)> {
    if req.PhaseRef? && req.phase in names then [(req.phase, phase)] else []
  }

  ghost function References(names: set<string>, phases: seq<Phase>): seq<(string, string)> {
    if phases == [] then []
    else
      var last := phases[|phases| - 1];
      References(names, phases[..|phases| - 1]) + RefsOf(names, last.name, last.requires_)
  }

  /** All references of a workflow between its own phases. */
  ghost function WorkflowRefs(w: Workflow): seq<(string, string)> {
    References(PhaseNames(w.phases), w.phases)
  }

  /** The dependency edges of a workflow: (a, b) when some phase named b requires phase a. */
  ghost function DependencyEdges(w: Workflow): set<(string, string)> {
    Elems(WorkflowRefs(w))
  }

  /** How many references point at phase `n`, with repetition. */
  ghost function CountInto(refs: seq<(string, string)>, n: string): nat {
    if refs == [] then 0
    else CountInto(refs[..|refs| - 1], n) + if refs[|refs| - 1].1 == n then 1 else 0
  }

  /** The distinct references into `n` that are not consumed yet. */
  ghost function OpenRefs(edges: set<(string, string)>, consumed: set<(string, string)>, n: string):
      set<(string, string)> {
    set e | e in edges && e.1 == n && e !in consumed
  }

  lemma {:induction false} CountIntoSurplus(refs: seq<(string, string)>, n: string)
    ensures CountInto(refs, n) >= |OpenRefs(Elems(refs), {}, n)|
    ensures NoDuplicates(refs) ==> CountInto(refs, n) == |OpenRefs(Elems(refs), {}, n)|
  {
    if refs == [] {
      assert OpenRefs(Elems(refs), {}, n) == {};
    } else {
      var m := |refs| - 1;
      var front, last := refs[..m], refs[m];
      CountIntoSurplus(front, n);
      assert refs == front + [last];
      ElemsAppend(front, last);
      var a, b := OpenRefs(Elems(front), {}, n), OpenRefs(Elems(refs), {}, n);
      assert b == if last.1 == n then a + {last} else a;
      if NoDuplicates(refs) {
        forall i | 0 <= i < m ensures front[i] != last {
          assert refs[i] == front[i];
        }
        assert last !in a;
      }
    }
  }

  /** A repeated reference leaves a surplus that no traversal of distinct edges can consume. */
  lemma {:induction false} RepeatHasSurplus(refs: seq<(string, string)>) returns (d: string, n: string)
    requires !NoDuplicates(refs)
    ensures (d, n) in refs && CountInto(refs, n) > |OpenRefs(Elems(refs), {}, n)|
  {
    var m := |refs| - 1;
    var front, last := refs[..m], refs[m];
    assert refs == front + [last];
    ElemsAppend(front, last);
    if last in front {
      d, n := last.0, last.1;
      CountIntoSurplus(front, n);
      assert OpenRefs(Elems(refs), {}, n) == OpenRefs(Elems(front), {}, n);
      assert (last.0, n) == refs[m];
    } else {
      assert !NoDuplicates(front) by {
        if NoDuplicates(front) {
          NoDuplicatesAppend(front, last);
        }
      }
      d, n := RepeatHasSurplus(front);
      assert (d, n) in refs;
      var a, b := OpenRefs(Elems(front), {}, n), OpenRefs(Elems(refs), {}, n);
      assert b == if last.1 == n then a + {last} else a;
    }
  }

  lemma {:induction false} RefsOfNames(names: set<string>, phase: string, requires_: seq<Require>)
    ensures forall e :: e in RefsOf(names, phase, requires_) ==> e.0 in names && e.1 == phase
  {
    if requires_ != [] {
      RefsOfNames(names, phase, requires_[..|requires_| - 1]);
    }
  }

  lemma {:induction false} ReferencesNames(names: set<string>, phases: seq<Phase>)
    ensures forall e :: e in References(names, phases) ==> e.0 in names && e.1 in PhaseNames(phases)
  {
    if phases != [] {
      var n := |phases| - 1;
      ReferencesNames(names, phases[..n]);
      RefsOfNames(names, phases[n].name, phases[n].requires_);
      assert forall i :: 0 <= i < n ==> phases[..n][i] == phases[i];
      assert PhaseNames(phases[..n]) <= PhaseNames(phases);
      assert phases[n].name in PhaseNames(phases);
    }
  }

  // ------------------------------------------------------------------ adjacency

  /** `graph` holds the distinct dependents of each phase; `inDegree` counts references with repetition. */
  ghost predicate Counted(names: set<string>, refs: seq<(string, string)>, graph: map<string, set<string>>,
                          inDegree: map<string, nat>) {
    && graph.Keys == names && inDegree.Keys == names
    && (forall a :: a in names ==> graph[a] == Dependents(refs, a))
    && (forall n :: n in names ==> inDegree[n] == CountInto(refs, n))
  }

  ghost function Dependents(refs: seq<(string, string)>, a: string): set<string> {
    set e | e in refs && e.0 == a :: e.1
  }

  lemma CountOne(names: set<string>, refs: seq<(string, string)>, graph: map<string, set<string>>,
                 inDegree: map<string, nat>, dep: string, phase: string)
    requires Counted(names, refs, graph, inDegree) && dep in names && phase in names
    ensures Counted(names, refs + [(dep, phase)], graph[dep := graph[dep] + {phase}],
                    inDegree[phase := inDegree[phase] + 1])
  {
    var e, more := (dep, phase), refs + [(dep, phase)];
    assert more[..|refs|] == refs && more[|refs|] == e;
    forall a | a in names ensures Dependents(more, a) == Dependents(refs, a) + if a == dep then {phase} else {} {
      forall b | b in Dependents(refs, a) ensures b in Dependents(more, a) {
        assert (a, b) in refs;
        assert (a, b) in more;
      }
      if a == dep {
        assert e in more;
      }
    }
  }

  method CountRequire(names: set<string>, phase: string, req: Require, graph: map<string, set<string>>,
                      inDegree: map<string, nat>, ghost refs: seq<(string, string)>)
    returns (graph': map<string, set<string>>, inDegree': map<string, nat>)
    requires Counted(names, refs, graph, inDegree) && phase in names
    ensures Counted(names, refs + RefOf(names, phase, req), graph', inDegree')
  {
    graph', inDegree' := graph, inDegree;
    assert refs + [] == refs;
    if req.PhaseRef? && req.phase in graph {
      CountOne(names, refs, graph, inDegree, req.phase, phase);
      graph' := graph[req.phase := graph[req.phase] + {phase}];
      inDegree' := inDegree[phase := inDegree[phase] + 1];
    }
  }

  /** One pass over the requires of one phase. */
  method CountRequires(names: set<string>, phase: string, requires_: seq<Require>, graph: map<string, set<string>>,
                       inDegree: map<string, nat>, ghost refs: seq<(string, string)>)
    returns (graph': map<string, set<string>>, inDegree': map<string, nat>)
    requires Counted(names, refs, graph, inDegree) && phase in names
    ensures Counted(names, refs + RefsOf(names, phase, requires_), graph', inDegree')
  {
    graph', inDegree' := graph, inDegree;
    ghost var seen := refs;
    var i := 0;
    while i < |requires_|
      invariant 0 <= i <= |requires_|
      invariant seen == refs + RefsOf(names, phase, requires_[..i])
      invariant Counted(names, seen, graph', inDegree')
    {
      assert requires_[..i + 1][..i] == requires_[..i];
      graph', inDegree' := CountRequire(names, phase, requires_[i], graph', inDegree', seen);
      seen := seen + RefOf(names, phase, requires_[i]);
      i := i + 1;
    }
    assert requires_[..i] == requires_;
  }

  method CountReferences(w: Workflow)
    returns (names: set<string>, graph: map<string, set<string>>, inDegree: map<string, nat>)
    ensures names == PhaseNames(w.phases) && Counted(names, WorkflowRefs(w), graph, inDegree)
  {
    names := set i | 0 <= i < |w.phases| :: w.phases[i].name;
    graph := map n | n in names :: {};
    inDegree := map n | n in names :: 0;
    var i := 0;
    while i < |w.phases|
      invariant 0 <= i <= |w.phases|
      invariant Counted(names, References(names, w.phases[..i]), graph, inDegree)
    {
      var phase := w.phases[i];
      assert w.phases[..i + 1][..i] == w.phases[..i];
      graph, inDegree :=
        CountRequires(names, phase.name, phase.requires_, graph, inDegree, References(names, w.phases[..i]));
      i := i + 1;
    }
    assert w.phases[..i] == w.phases;
  }

  // ------------------------------------------------------------------ Kahn's algorithm

  /** Each degree is the surplus of repeated references plus the distinct references still open. */
  ghost predicate Degrees(names: set<string>, edges: set<(string, string)>, surplus: map<string, nat>,
                          inDegree: map<string, nat>, consumed: set<(string, string)>) {
    && surplus.Keys == names && inDegree.Keys == names
    && forall n :: n in names ==> inDegree[n] == surplus[n] + |OpenRefs(edges, consumed, n)|
  }

  /** The references whose dependency has been placed. */
  ghost function OutOf(edges: set<(string, string)>, order: seq<string>): set<(string, string)> {
    set e | e in edges && e.0 in order
  }

  ghost function From(node: string, targets: set<string>): set<(string, string)> {
    set t | t in targets :: (node, t)
  }

  lemma ConsumeRef(names: set<string>, edges: set<(string, string)>, surplus: map<string, nat>,
                   inDegree: map<string, nat>, consumed: set<(string, string)>, e: (string, string))
    requires Degrees(names, edges, surplus, inDegree, consumed)
    requires e in edges && e !in consumed && e.1 in names
    ensures inDegree[e.1] >= 1
    ensures Degrees(names, edges, surplus, inDegree[e.1 := inDegree[e.1] - 1], consumed + {e})
  {
    assert OpenRefs(edges, consumed, e.1) == OpenRefs(edges, consumed + {e}, e.1) + {e};
    forall n | n in names && n != e.1 ensures OpenRefs(edges, consumed + {e}, n) == OpenRefs(edges, consumed, n) {
    }
  }

  ghost function Used(consumed: set<(string, string)>, node: string, targets: set<string>, todo: set<string>):
      set<(string, string)> {
    consumed + From(node, targets - todo)
  }

  lemma UsedStep(consumed: set<(string, string)>, node: string, targets: set<string>, todo: set<string>, t: string)
    requires From(node, targets) !! consumed && todo <= targets && t in todo
    ensures (node, t) !in Used(consumed, node, targets, todo)
    ensures Used(consumed, node, targets, todo - {t}) == Used(consumed, node, targets, todo) + {(node, t)}
  {
    assert (node, t) in From(node, targets);
  }

  /** Lowers the degree of every dependent of a phase just placed. */
  method Relax(names: set<string>, ghost edges: set<(string, string)>, ghost surplus: map<string, nat>,
               ghost node: string,
               targets: set<string>, inDegree: map<string, nat>, queue: seq<string>,
               ghost placed: seq<string>, ghost consumed: set<(string, string)>)
    returns (inDegree': map<string, nat>, queue': seq<string>)
    requires targets <= names && From(node, targets) <= edges && From(node, targets) !! consumed
    requires Degrees(names, edges, surplus, inDegree, consumed) && Listed(inDegree, placed + queue)
    ensures Degrees(names, edges, surplus, inDegree', consumed + From(node, targets))
    ensures Listed(inDegree', placed + queue')
  {
    inDegree', queue' := inDegree, queue;
    var todo := targets;
    assert Used(consumed, node, targets, todo) == consumed;
    while todo != {}
      invariant todo <= targets
      invariant Degrees(names, edges, surplus, inDegree', Used(consumed, node, targets, todo))
      invariant Listed(inDegree', placed + queue')
    {
      var t :| t in todo;
      UsedStep(consumed, node, targets, todo, t);
      assert (node, t) in From(node, targets);
      ConsumeRef(names, edges, surplus, inDegree', Used(consumed, node, targets, todo), (node, t));
      inDegree', queue' := LowerDegree(t, inDegree', queue', placed);
      todo := todo - {t};
    }
    assert targets - {} == targets;
  }

  /** The front of the queue has all its dependencies placed. */
  lemma PlaceNext(names: set<string>, edges: set<(string, string)>, surplus: map<string, nat>,
                  inDegree: map<string, nat>, order: seq<string>, queue: seq<string>)
    requires queue != [] && Degrees(names, edges, surplus, inDegree, OutOf(edges, order))
    requires Listed(inDegree, order + queue)
    requires SourcesFirst(edges, order)
    ensures queue[0] in names && order + queue == (order + [queue[0]]) + queue[1..]
    ensures SourcesFirst(edges, order + [queue[0]])
  {
    var node, placed, listed := queue[0], OutOf(edges, order), order + queue;
    assert listed[|order|] == node;
    assert node in Elems(listed);
    assert |OpenRefs(edges, placed, node)| == 0;
    forall a | (a, node) in edges ensures a in order {
      assert (a, node) !in OpenRefs(edges, placed, node);
    }
    SourcesFirstAppend(edges, order, node);
  }

  lemma ConsumeNode(edges: set<(string, string)>, refs: seq<(string, string)>, order: seq<string>, queue: seq<string>)
    requires edges == Elems(refs) && queue != [] && NoDuplicates(order + queue)
    ensures From(queue[0], Dependents(refs, queue[0])) <= edges
    ensures From(queue[0], Dependents(refs, queue[0])) !! OutOf(edges, order)
    ensures OutOf(edges, order + [queue[0]]) == OutOf(edges, order) + From(queue[0], Dependents(refs, queue[0]))
  {
    var node := queue[0];
    forall k | 0 <= k < |order| ensures order[k] != node {
      assert (order + queue)[k] == order[k] && (order + queue)[|order|] == node;
    }
    forall e | e in edges && e.0 == node ensures e in From(node, Dependents(refs, node)) {
      assert e.1 in Dependents(refs, node);
    }
  }

  ghost function Surplus(names: set<string>, refs: seq<(string, string)>): (m: map<string, nat>)
    ensures m.Keys == names
  {
    map n | n in names :: SurplusAt(refs, n)
  }

  ghost function SurplusAt(refs: seq<(string, string)>, n: string): nat {
    CountIntoSurplus(refs, n);
    CountInto(refs, n) - |OpenRefs(Elems(refs), {}, n)|
  }

  /** The main loop: places phases until none of degree zero is left. */
  method Drain(names: set<string>, ghost refs: seq<(string, string)>, graph: map<string, set<string>>,
               inDegree: map<string, nat>)
    returns (order: seq<string>, inDegree': map<string, nat>)
    requires Counted(names, refs, graph, inDegree) && forall e :: e in refs ==> e.1 in names
    ensures SourcesFirst(Elems(refs), order) && Listed(inDegree', order)
    ensures Degrees(names, Elems(refs), Surplus(names, refs), inDegree', OutOf(Elems(refs), order))
  {
    ghost var edges, surplus := Elems(refs), Surplus(names, refs);
    var queue := ListOf(set n | n in names && inDegree[n] == 0);
    order, inDegree' := [], inDegree;
    assert OutOf(edges, []) == {};
    assert Zeros(inDegree) == set n | n in names && inDegree[n] == 0;
    assert order + queue == queue;
    while queue != []
      invariant Degrees(names, edges, surplus, inDegree', OutOf(edges, order)) && Listed(inDegree', order + queue)
      invariant SourcesFirst(edges, order)
      decreases |names| - |order|
    {
      var node := queue[0];
      ListedSize(names, order + queue);
      PlaceNext(names, edges, surplus, inDegree', order, queue);
      ConsumeNode(edges, refs, order, queue);
      ghost var consumed := OutOf(edges, order);
      queue, order := queue[1..], order + [node];
      inDegree', queue := Relax(names, edges, surplus, node, graph[node], inDegree', queue, order, consumed);
    }
    assert order + queue == order;
  }

  // ------------------------------------------------------------------ naming a cycle

  ghost predicate Finishing(edges: set<(string, string)>, scope: set<string>, finished: seq<string>) {
    NoDuplicates(finished) && Elems(finished) <= scope && TargetsFirst(edges, scope, finished)
  }

  /** Every visited phase is either on the active path or finished. */
  ghost predicate Split(visited: set<string>, path: seq<string>, finished: seq<string>) {
    visited == Elems(path) + Elems(finished) && Elems(path) !! Elems(finished)
  }

  /** `graph` lists the targets of every edge. */
  ghost predicate Adjacency(graph: map<string, set<string>>, edges: set<(string, string)>) {
    forall a, b :: (a, b) in edges <==> a in graph && b in graph[a]
  }

  function IndexOf(path: seq<string>, node: string): (k: nat)
    requires node in path
    ensures k < |path| && path[k] == node
  {
    if path[0] == node then 0 else 1 + IndexOf(path[1..], node)
  }

  /** The nested search: reports the stretch of the path a back edge closes, skips visited phases. */
  method Search(graph: map<string, set<string>>, ghost edges: set<(string, string)>, remaining: set<string>,
                node: string, visited: set<string>, path: seq<string>, ghost finished: seq<string>)
    returns (found: Option<seq<string>>, visited': set<string>, ghost finished': seq<string>)
    requires Adjacency(graph, edges) && node in remaining
    requires Split(visited, path, finished) && Finishing(edges, remaining, finished)
    requires path == [] || (Walk(edges, path) && (path[|path| - 1], node) in edges)
    ensures found.Some? ==> ClosedWalk(edges, found.value)
    ensures found.None? ==> Split(visited', path, finished') && Finishing(edges, remaining, finished')
    ensures found.None? ==> Elems(finished) <= Elems(finished') && node in Elems(finished')
    decreases remaining - visited, 1
  {
    if node in path {
      var idx := IndexOf(path, node);
      WalkCloses(edges, path, idx);
      return Some(path[idx..] + [node]), visited, finished;
    }
    if node in visited {
      return None, visited, finished;
    }
    found, visited', finished' := Explore(graph, edges, remaining, node, visited, path, finished);
  }

  method Explore(graph: map<string, set<string>>, ghost edges: set<(string, string)>, remaining: set<string>,
                 node: string, visited: set<string>, path: seq<string>, ghost finished: seq<string>)
    returns (found: Option<seq<string>>, visited': set<string>, ghost finished': seq<string>)
    requires Adjacency(graph, edges) && node in remaining && node !in visited
    requires Split(visited, path, finished) && Finishing(edges, remaining, finished)
    requires path == [] || (Walk(edges, path) && (path[|path| - 1], node) in edges)
    ensures found.Some? ==> ClosedWalk(edges, found.value)
    ensures found.None? ==> Split(visited', path, finished') && Finishing(edges, remaining, finished')
    ensures found.None? ==> Elems(finished) <= Elems(finished') && node in Elems(finished')
    decreases remaining - visited, 0
  {
    var longer := path + [node];
    ElemsAppend(path, node);
    WalkAppend(edges, path, node);
    visited', finished' := visited + {node}, finished;
    var todo := if node in graph then graph[node] else {};
    ghost var all := todo;
    while todo != {}
      invariant todo <= all
      invariant Split(visited', longer, finished') && Finishing(edges, remaining, finished')
      invariant Elems(finished) <= Elems(finished')
      invariant forall b :: b in all && b !in todo && b in remaining ==> b in Elems(finished')
    {
      var neighbor :| neighbor in todo;
      if neighbor in remaining {
        assert remaining - visited' < remaining - visited;
        assert (longer[|longer| - 1], neighbor) in edges;
        found, visited', finished' := Search(graph, edges, remaining, neighbor, visited', longer, finished');
        if found.Some? {
          return;
        }
      }
      todo := todo - {neighbor};
    }
    FinishPhase(edges, remaining, finished', node);
    found, finished' := None, finished' + [node];
  }

  lemma FinishPhase(edges: set<(string, string)>, remaining: set<string>, finished: seq<string>, node: string)
    requires Finishing(edges, remaining, finished) && node in remaining && node !in Elems(finished)
    requires forall b :: (node, b) in edges && b in remaining ==> b in finished
    ensures Finishing(edges, remaining, finished + [node]) && Elems(finished + [node]) == Elems(finished) + {node}
  {
    NoDuplicatesAppend(finished, node);
    ElemsAppend(finished, node);
    TargetsFirstAppend(edges, remaining, finished, node);
  }

  /** Reports a closed walk of dependency edges, or falls back to listing `remaining`; the fallback
      comes with a finishing order of the whole of `remaining`. */
  method FindCycle(graph: map<string, set<string>>, ghost edges: set<(string, string)>, remaining: set<string>)
    returns (cycle: seq<string>, ghost finished: seq<string>)
    requires Adjacency(graph, edges)
    ensures ClosedWalk(edges, cycle) || (Elems(cycle) == remaining && NoDuplicates(cycle))
    ensures ClosedWalk(edges, cycle) || (Finishing(edges, remaining, finished) && Elems(finished) == remaining)
  {
    var visited: set<string> := {};
    finished := [];
    var todo := remaining;
    while todo != {}
      invariant todo <= remaining
      invariant Split(visited, [], finished) && Finishing(edges, remaining, finished)
      invariant remaining - todo <= Elems(finished)
    {
      var start :| start in todo;
      var found: Option<seq<string>>;
      found, visited, finished := Search(graph, edges, remaining, start, visited, [], finished);
      if found.Some? {
        return found.value, finished;
      }
      todo := todo - {start};
    }
    cycle := ListOf(remaining);
  }

  /** A partial order followed by the reversed finishing order of the rest is a sources-first listing. */
  lemma FallbackAcyclic(names: set<string>, edges: set<(string, string)>, order: seq<string>, finished: seq<string>)
    requires NoDuplicates(order) && SourcesFirst(edges, order) && Elems(order) <= names
    requires Finishing(edges, names - Elems(order), finished) && Elems(finished) == names - Elems(order)
    requires forall e :: e in edges ==> e.0 in names && e.1 in names
    ensures Acyclic(edges)
  {
    var back := Reversed(finished);
    var all := order + back;
    forall i, j | 0 <= i < j < |all| ensures all[i] != all[j] {
      if j >= |order| {
        assert all[j] == finished[|finished| - 1 - (j - |order|)];
        assert all[j] in Elems(finished);
        if i >= |order| {
          assert all[i] == finished[|finished| - 1 - (i - |order|)];
        } else {
          assert all[i] in Elems(order);
        }
      }
    }
    forall j, a | 0 <= j < |all| && (a, all[j]) in edges ensures a in all[..j] {
      if j < |order| {
        assert all[..j] == order[..j];
      } else {
        ReversedSource(names, edges, order, finished, j - |order|, a);
      }
    }
    forall e | e in edges ensures e.1 in all {
      if e.1 in Elems(order) {
        var k := MemberAt(e.1, order);
        assert all[k] == e.1;
      } else {
        assert e.1 in Elems(finished);
        var k := MemberAt(e.1, finished);
        assert all[|order| + (|finished| - 1 - k)] == e.1;
      }
    }
    SourcesFirstAcyclic(edges, all);
  }

  lemma ReversedSource(names: set<string>, edges: set<(string, string)>, order: seq<string>, finished: seq<string>,
                       k: nat, a: string)
    requires Finishing(edges, names - Elems(order), finished) && Elems(finished) == names - Elems(order)
    requires k < |finished| && a in names && (a, Reversed(finished)[k]) in edges
    ensures a in (order + Reversed(finished))[..|order| + k]
  {
    var all := order + Reversed(finished);
    if a in Elems(order) {
      var i := MemberAt(a, order);
      assert all[..|order| + k][i] == a;
    } else {
      assert a in Elems(finished);
      var i := MemberAt(a, finished);
      var x := Reversed(finished)[k];
      assert x == finished[|finished| - 1 - k];
      assert x in Elems(finished);
      assert x in finished[..i];
      var m := MemberAt(x, finished[..i]);
      assert m == |finished| - 1 - k;
      assert all[..|order| + k][|order| + (|finished| - 1 - i)] == a;
    }
  }

  /** If the rest is acyclic yet was never placed, one of its phases repeats a reference. */
  lemma StuckByRepeat(names: set<string>, refs: seq<(string, string)>, inDegree: map<string, nat>, order: seq<string>)
    requires Degrees(names, Elems(refs), Surplus(names, refs), inDegree, OutOf(Elems(refs), order))
    requires Listed(inDegree, order) && names - Elems(order) != {} && Acyclic(Elems(refs))
    requires forall e :: e in refs ==> e.0 in names && e.1 in names
    ensures !NoDuplicates(refs)
  {
    var edges := Elems(refs);
    var x := SourceExists(edges, names - Elems(order));
    assert OpenRefs(edges, OutOf(edges, order), x) == {} by {
      forall e | e in edges && e.1 == x ensures e in OutOf(edges, order) {
        assert !(e.0 in names - Elems(order));
      }
    }
    assert Surplus(names, refs)[x] > 0;
    CountIntoSurplus(refs, x);
  }

  /** A full order leaves no surplus, so no reference is repeated. */
  lemma FullOrderHasNoRepeat(names: set<string>, refs: seq<(string, string)>, inDegree: map<string, nat>,
                             order: seq<string>)
    requires Degrees(names, Elems(refs), Surplus(names, refs), inDegree, OutOf(Elems(refs), order))
    requires Listed(inDegree, order) && Elems(order) == names
    requires forall e :: e in refs ==> e.1 in names
    ensures NoDuplicates(refs)
  {
    forall n | n in names ensures CountInto(refs, n) == |OpenRefs(Elems(refs), {}, n)| {
      assert n in Zeros(inDegree);
      assert Surplus(names, refs)[n] == 0;
    }
    if !NoDuplicates(refs) {
      var d, n := RepeatHasSurplus(refs);
    }
  }

  /** A placement that reaches every phase is the order; anything less leaves phases of positive degree. */
  lemma FullOrder(names: set<string>, refs: seq<(string, string)>, inDegree: map<string, nat>, order: seq<string>)
    requires Degrees(names, Elems(refs), Surplus(names, refs), inDegree, OutOf(Elems(refs), order))
    requires SourcesFirst(Elems(refs), order) && Listed(inDegree, order) && |order| == |names|
    requires forall e :: e in refs ==> e.1 in names
    ensures Elems(order) == names && NoDuplicates(refs) && Acyclic(Elems(refs))
  {
    ListedSize(names, order);
    FullOrderHasNoRepeat(names, refs, inDegree, order);
    forall e | e in Elems(refs) ensures e.1 in order {
      assert e.1 in Elems(order);
    }
    SourcesFirstAcyclic(Elems(refs), order);
  }

  /** The failing exit: names a cycle over the phases whose degree never reached zero. */
  method ReportCycle(names: set<string>, ghost refs: seq<(string, string)>, graph: map<string, set<string>>,
                     inDegree: map<string, nat>, ghost order: seq<string>)
    returns (cycle: seq<string>)
    requires Degrees(names, Elems(refs), Surplus(names, refs), inDegree, OutOf(Elems(refs), order))
    requires SourcesFirst(Elems(refs), order) && Listed(inDegree, order) && |order| != |names|
    requires Adjacency(graph, Elems(refs)) && forall e :: e in refs ==> e.0 in names && e.1 in names
    ensures ClosedWalk(Elems(refs), cycle) <==> !Acyclic(Elems(refs))
    ensures Acyclic(Elems(refs)) ==> !NoDuplicates(refs)
  {
    var remaining := set n | n in inDegree && inDegree[n] > 0;
    assert Zeros(inDegree) <= names && remaining == names - Zeros(inDegree);
    ghost var finished;
    cycle, finished := FindCycle(graph, Elems(refs), remaining);
    if ClosedWalk(Elems(refs), cycle) {
      ClosedWalkIsCycle(Elems(refs), cycle);
    } else {
      FallbackAcyclic(names, Elems(refs), order, finished);
      NotAllPlaced(names, order);
      StuckByRepeat(names, refs, inDegree, order);
    }
  }

  lemma NotAllPlaced(names: set<string>, order: seq<string>)
    requires NoDuplicates(order) && Elems(order) <= names && |order| != |names|
    ensures names - Elems(order) != {}
  {
    if names - Elems(order) == {} {
      forall x | x in names ensures x in Elems(order) {
        assert x !in names - Elems(order);
      }
      assert names == Elems(order);
      ElemsSize(order);
    }
  }

  lemma {:induction false} ElemsSize(order: seq<string>)
    requires NoDuplicates(order)
    ensures |Elems(order)| == |order|
  {
    if order == [] {
      assert Elems(order) == {};
    } else {
      var last := |order| - 1;
      ElemsSize(order[..last]);
      assert order == order[..last] + [order[last]];
      ElemsAppend(order[..last], order[last]);
      assert order[last] !in Elems(order[..last]);
    }
  }

  lemma CountedAdjacency(names: set<string>, refs: seq<(string, string)>, graph: map<string, set<string>>,
                         inDegree: map<string, nat>)
    requires Counted(names, refs, graph, inDegree) && forall e :: e in refs ==> e.0 in names
    ensures Adjacency(graph, Elems(refs))
  {
    forall a, b ensures (a, b) in Elems(refs) <==> a in graph && b in graph[a] {
      if a in graph {
        assert b in graph[a] <==> b in Dependents(refs, a);
      }
    }
  }

  /**
   * Kahn's algorithm over the phase references. It succeeds exactly when the references are acyclic
   * and no phase repeats one; the order then lists every phase once, each after its dependencies.
   * On failure the reported tuple is a closed walk of references exactly when there is a cycle:
   * a merely repeated reference is reported through the fallback listing.
   */
  method TopologicalSort(w: Workflow) returns (r: SortResult)
    ensures r.Sorted? <==> Acyclic(DependencyEdges(w)) && NoDuplicates(WorkflowRefs(w))
    ensures r.Sorted? ==> NoDuplicates(r.order) && Elems(r.order) == PhaseNames(w.phases)
    ensures r.Sorted? ==> SourcesFirst(DependencyEdges(w), r.order)
    ensures r.Cyclic? ==> (ClosedWalk(DependencyEdges(w), r.cycle) <==> !Acyclic(DependencyEdges(w)))
  {
    ghost var refs := WorkflowRefs(w);
    var names, graph, inDegree := CountReferences(w);
    ReferencesNames(names, w.phases);
    CountedAdjacency(names, refs, graph, inDegree);
    var order;
    order, inDegree := Drain(names, refs, graph, inDegree);
    if |order| == |graph| {
      FullOrder(names, refs, inDegree, order);
      r := Sorted(order);
    } else {
      var cycle := ReportCycle(names, refs, graph, inDegree, order);
      r := Cyclic(cycle);
    }
  }

  /** Phase b names phase a twice, under both conditions. */
  function TwiceNamed(a: string, b: string): Workflow {
    var twice := [PhaseRef(a, "passed"), PhaseRef(a, "complete")];
    Workflow("twice", [Phase(a, [], [], [], [], None, None, [], []), Phase(b, twice, [], [], [], None, None, [], [])])
  }

  /** Its references are acyclic, and yet the sort reports a cycle that is none. */
  method RepeatIsRefused(a: string, b: string) returns (r: SortResult)
    requires a != b
    ensures Acyclic(DependencyEdges(TwiceNamed(a, b))) && r.Cyclic?
    ensures !ClosedWalk(DependencyEdges(TwiceNamed(a, b)), r.cycle)
  {
    TwiceRefs(a, b);
    r := TopologicalSort(TwiceNamed(a, b));
  }

  lemma TwiceRefs(a: string, b: string)
    requires a != b
    ensures Acyclic(DependencyEdges(TwiceNamed(a, b))) && !NoDuplicates(WorkflowRefs(TwiceNamed(a, b)))
  {
    var w := TwiceNamed(a, b);
    var names := PhaseNames(w.phases);
    assert w.phases[0].name == a && w.phases[1].name == b && a in names;
    var p, q := w.phases[0], w.phases[1];
    assert q.requires_[..1] == [q.requires_[0]] && q.requires_[..1][..0] == [];
    assert RefsOf(names, b, []) == [] && RefsOf(names, b, q.requires_[..1]) == [(a, b)];
    assert RefsOf(names, b, q.requires_) == [(a, b), (a, b)];
    assert w.phases[..1] == [p] && w.phases[..1][..0] == [];
    assert References(names, []) == [] && References(names, w.phases[..1]) == [];
    var refs := WorkflowRefs(w);
    assert refs == [(a, b), (a, b)];
    assert refs[0] == refs[1];
    assert DependencyEdges(w) == {(a, b)};
    assert [a, b][1] == b && a in [a, b][..1] by {
      assert [a, b][..1][0] == a;
    }
    SourcesFirstAcyclic({(a, b)}, [a, b]);
  }

  // ------------------------------------------------------------------ accepted workflows

  ghost predicate UniqueNames(w: Workflow) {
    forall i, j :: 0 <= i < j < |w.phases| ==> w.phases[i].name != w.phases[j].name
  }

  /** Every phase reference, conditional blocks included, names a phase of the workflow. */
  ghost predicate KnownRefs(names: set<string>, requires_: seq<Require>) {
    forall i :: 0 <= i < |requires_| && requires_[i].PhaseRef? ==> requires_[i].phase in names
  }

  ghost predicate PhaseKnown(names: set<string>, p: Phase) {
    KnownRefs(names, p.requires_) && forall k :: 0 <= k < |p.whenBlocks| ==> KnownRefs(names, p.whenBlocks[k].requires_)
  }

  ghost predicate AllKnown(w: Workflow) {
    forall i :: 0 <= i < |w.phases| ==> PhaseKnown(PhaseNames(w.phases), w.phases[i])
  }

  /** What the resolver guarantees of a workflow it accepts with this phase order. */
  ghost predicate Compiled(w: Workflow, order: seq<string>) {
    && UniqueNames(w) && AllKnown(w) && NoDuplicates(WorkflowRefs(w))
    && NoDuplicates(order) && Elems(order) == PhaseNames(w.phases) && SourcesFirst(DependencyEdges(w), order)
  }

  datatype ResolveError =
    DuplicatePhase(name: string) | UnknownPhase(name: string) | CyclicDependency(cycle: seq<string>)

  /** Some require refers to a phase of this name, and there is none. */
  ghost predicate Dangling(names: set<string>, requires_: seq<Require>, name: string) {
    name !in names && exists i :: 0 <= i < |requires_| && requires_[i].PhaseRef? && requires_[i].phase == name
  }

  ghost predicate PhaseDangling(names: set<string>, p: Phase, name: string) {
    || Dangling(names, p.requires_, name)
    || exists k :: 0 <= k < |p.whenBlocks| && Dangling(names, p.whenBlocks[k].requires_, name)
  }

  ghost predicate Repeated(phases: seq<Phase>, name: string) {
    exists a, b :: 0 <= a < b < |phases| && phases[a].name == name && phases[b].name == name
  }

  /** The errors name exactly the phases that are referred to and missing. */
  method UnknownIn(names: set<string>, requires_: seq<Require>) returns (errors: seq<ResolveError>)
    ensures errors == [] <==> KnownRefs(names, requires_)
    ensures forall e :: e in errors <==> e.UnknownPhase? && Dangling(names, requires_, e.name)
  {
    errors := [];
    for i := 0 to |requires_|
      invariant errors == [] <==> KnownRefs(names, requires_[..i])
      invariant forall e :: e in errors <==> e.UnknownPhase? && Dangling(names, requires_[..i], e.name)
    {
      assert requires_[..i + 1] == requires_[..i] + [requires_[i]];
      DanglingNext(names, requires_, i);
      if requires_[i].PhaseRef? && requires_[i].phase !in names {
        errors := errors + [UnknownPhase(requires_[i].phase)];
      }
    }
    assert requires_[..|requires_|] == requires_;
  }

  lemma DanglingNext(names: set<string>, requires_: seq<Require>, i: nat)
    requires i < |requires_|
    ensures forall name :: Dangling(names, requires_[..i + 1], name) <==>
              Dangling(names, requires_[..i], name) ||
              (name !in names && requires_[i].PhaseRef? && requires_[i].phase == name)
  {
    forall name
      ensures Dangling(names, requires_[..i + 1], name) <==>
                Dangling(names, requires_[..i], name) ||
                (name !in names && requires_[i].PhaseRef? && requires_[i].phase == name)
    {
      assert forall k :: 0 <= k < i ==> requires_[..i + 1][k] == requires_[..i][k];
      assert requires_[..i + 1][i] == requires_[i];
    }
  }

  method UnknownInPhase(names: set<string>, p: Phase) returns (errors: seq<ResolveError>)
    ensures errors == [] <==> PhaseKnown(names, p)
    ensures forall e :: e in errors <==> e.UnknownPhase? && PhaseDangling(names, p, e.name)
  {
    errors := UnknownIn(names, p.requires_);
    ghost var base := errors;
    for k := 0 to |p.whenBlocks|
      invariant errors == [] <==> base == [] && forall j :: 0 <= j < k ==> KnownRefs(names, p.whenBlocks[j].requires_)
      invariant forall e :: e in errors <==>
                  e in base ||
                  (e.UnknownPhase? && exists j :: 0 <= j < k && Dangling(names, p.whenBlocks[j].requires_, e.name))
    {
      var more := UnknownIn(names, p.whenBlocks[k].requires_);
      errors := errors + more;
    }
  }

  /** The errors name exactly the phases declared more than once. */
  method DuplicateNames(w: Workflow) returns (errors: seq<ResolveError>, names: set<string>)
    ensures errors == [] <==> UniqueNames(w)
    ensures names == PhaseNames(w.phases)
    ensures forall e :: e in errors <==> e.DuplicatePhase? && Repeated(w.phases, e.name)
  {
    errors, names := [], {};
    for i := 0 to |w.phases|
      invariant names == set k | 0 <= k < i :: w.phases[k].name
      invariant errors == [] <==> forall a, b :: 0 <= a < b < i ==> w.phases[a].name != w.phases[b].name
      invariant forall e :: e in errors <==> e.DuplicatePhase? && Repeated(w.phases[..i], e.name)
    {
      RepeatedNext(w.phases, i);
      if w.phases[i].name in names {
        errors := errors + [DuplicatePhase(w.phases[i].name)];
      }
      names := names + {w.phases[i].name};
    }
    assert w.phases[..|w.phases|] == w.phases;
  }

  ghost predicate NamedBefore(phases: seq<Phase>, i: nat, name: string)
    requires i <= |phases|
  {
    exists k :: 0 <= k < i && phases[k].name == name
  }

  lemma RepeatedNext(phases: seq<Phase>, i: nat)
    requires i < |phases|
    ensures forall name :: Repeated(phases[..i + 1], name) <==>
              Repeated(phases[..i], name) || (phases[i].name == name && NamedBefore(phases, i, name))
  {
    var longer, shorter := phases[..i + 1], phases[..i];
    forall name
      ensures Repeated(longer, name) <==>
                Repeated(shorter, name) || (phases[i].name == name && NamedBefore(phases, i, name))
    {
      assert forall k :: 0 <= k < i ==> longer[k] == phases[k] && shorter[k] == phases[k];
      assert longer[i] == phases[i];
      if phases[i].name == name && NamedBefore(phases, i, name) {
        var k :| 0 <= k < i && phases[k].name == name;
        assert longer[k].name == name && longer[i].name == name;
      }
    }
  }

  /**
   * The structural checks of a workflow: no error exactly when names are unique, every reference is
   * known, none is repeated and there is no cycle; the returned order then satisfies `Compiled`. Every
   * repeated name and every dangling reference is reported, and nothing else is; a workflow that cannot
   * be ordered keeps its declaration order.
   */
  method ResolveWorkflow(w: Workflow) returns (errors: seq<ResolveError>, order: seq<string>)
    ensures errors == [] <==>
            UniqueNames(w) && AllKnown(w) && NoDuplicates(WorkflowRefs(w)) && Acyclic(DependencyEdges(w))
    ensures errors == [] ==> Compiled(w, order)
    ensures forall name :: DuplicatePhase(name) in errors <==> Repeated(w.phases, name)
    ensures forall name :: UnknownPhase(name) in errors <==>
              exists i :: 0 <= i < |w.phases| && PhaseDangling(PhaseNames(w.phases), w.phases[i], name)
    ensures (exists cycle :: CyclicDependency(cycle) in errors) <==>
            !(NoDuplicates(WorkflowRefs(w)) && Acyclic(DependencyEdges(w)))
    ensures (exists cycle :: CyclicDependency(cycle) in errors) ==>
            |order| == |w.phases| && forall i :: 0 <= i < |order| ==> order[i] == w.phases[i].name
  {
    var names;
    errors, names := DuplicateNames(w);
    ghost var base := errors;
    for i := 0 to |w.phases|
      invariant errors == [] <==> base == [] && forall j :: 0 <= j < i ==> PhaseKnown(names, w.phases[j])
      invariant forall e :: e in errors <==>
                  e in base || (e.UnknownPhase? && exists j :: 0 <= j < i && PhaseDangling(names, w.phases[j], e.name))
    {
      var more := UnknownInPhase(names, w.phases[i]);
      errors := errors + more;
    }
    var sorted := TopologicalSort(w);
    match sorted {
      case Sorted(o) => order := o;
      case Cyclic(cycle) =>
        assert (errors + [CyclicDependency(cycle)])[|errors|] == CyclicDependency(cycle);
        errors := errors + [CyclicDependency(cycle)];
        order := seq(|w.phases|, i requires 0 <= i < |w.phases| => w.phases[i].name);
    }
  }
}
