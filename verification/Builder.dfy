/** The fluent builder of operation graphs, and the translation of a compiled workflow into one. */
module GraphBuilder {
  import opened Options
  import opened CharterAst
  import opened Digraph
  import opened Resolver
  import KronGraph

  type Id = KronGraph.Id

  datatype AddResult = Added | DuplicateName | MissingDependency(name: string)

  // ------------------------------------------------------------------ renaming nodes

  ghost predicate Injective(f: map<string, Id>) {
    forall a, b :: a in f && b in f && f[a] == f[b] ==> a == b
  }

  ghost predicate Over(f: map<string, Id>, links: set<(string, string)>) {
    forall e :: e in links ==> e.0 in f && e.1 in f
  }

  ghost function Image(f: map<string, Id>, links: set<(string, string)>): set<(Id, Id)>
    requires Over(f, links)
  {
    set e | e in links :: (f[e.0], f[e.1])
  }

  lemma ImageReaches(f: map<string, Id>, links: set<(string, string)>, x: string)
    requires Over(f, links) && Reaches(links, x, x)
    ensures !Acyclic(Image(f, links))
  {
    var w :| Walk(links, w) && |w| >= 2 && w[0] == x && w[|w| - 1] == x;
    forall i | 0 <= i < |w| ensures w[i] in f {
      if i < |w| - 1 { assert (w[i], w[i + 1]) in links; } else { assert (w[i - 1], w[i - 1 + 1]) in links; }
    }
    var u := seq(|w|, i requires 0 <= i < |w| => f[w[i]]);
    forall i | 0 <= i < |u| - 1 ensures (u[i], u[i + 1]) in Image(f, links) {
      assert (w[i], w[i + 1]) in links;
    }
    ClosedWalkIsCycle(Image(f, links), u);
  }

  lemma ImageReflects(f: map<string, Id>, links: set<(string, string)>, y: Id)
    requires Over(f, links) && Injective(f) && Reaches(Image(f, links), y, y)
    ensures !Acyclic(links)
  {
    var u :| Walk(Image(f, links), u) && |u| >= 2 && u[0] == y && u[|u| - 1] == y;
    var w := seq(|u|, i requires 0 <= i < |u| => Preimage(f, links, u, i));
    forall i | 0 <= i < |w| - 1 ensures (w[i], w[i + 1]) in links {
      assert (u[i], u[i + 1]) in Image(f, links);
      var e :| e in links && (f[e.0], f[e.1]) == (u[i], u[i + 1]);
      assert e == (w[i], w[i + 1]);
    }
    ClosedWalkIsCycle(links, w);
  }

  ghost function Preimage(f: map<string, Id>, links: set<(string, string)>, u: seq<Id>, i: nat): (x: string)
    requires Over(f, links) && Walk(Image(f, links), u) && |u| >= 2 && i < |u|
    ensures x in f && f[x] == u[i]
  {
    var k := if i < |u| - 1 then i else i - 1;
    assert (u[k], u[k + 1]) in Image(f, links);
    var e :| e in links && (f[e.0], f[e.1]) == (u[k], u[k + 1]);
    if i < |u| - 1 then e.0 else e.1
  }

  /** Renaming nodes injectively neither makes nor breaks cycles. */
  lemma ImageAcyclic(f: map<string, Id>, links: set<(string, string)>)
    requires Over(f, links) && Injective(f)
    ensures Acyclic(Image(f, links)) <==> Acyclic(links)
  {
    if !Acyclic(links) {
      var x :| Reaches(links, x, x);
      ImageReaches(f, links, x);
    }
    if !Acyclic(Image(f, links)) {
      var y :| Reaches(Image(f, links), y, y);
      ImageReflects(f, links, y);
    }
  }

  // ------------------------------------------------------------------ the builder

  /** No id at or above `serial` is in use. */
  ghost predicate Unused(nodes: set<Id>, edges: set<Id>, serial: nat) {
    (forall n :: n in nodes ==> n.serial < serial) && (forall e :: e in edges ==> e.serial < serial)
  }

  /** The edges are exactly the links: one edge per link, between the nodes of its two names. */
  ghost predicate Realises(nodes: map<string, Id>, edges: map<Id, KronGraph.Edge>, links: seq<(string, string)>,
                           edgeIds: seq<Id>) {
    && |edgeIds| == |links| && NoDuplicates(edgeIds) && Elems(edgeIds) == edges.Keys
    && forall k :: 0 <= k < |links| ==>
      (links[k].0 in nodes && links[k].1 in nodes && edgeIds[k] in edges &&
       edges[edgeIds[k]] == KronGraph.Edge(nodes[links[k].0], nodes[links[k].1]))
  }

  lemma RealiseLink(nodes: map<string, Id>, edges: map<Id, KronGraph.Edge>, links: seq<(string, string)>,
                    edgeIds: seq<Id>, id: Id, dep: string, target: string)
    requires Realises(nodes, edges, links, edgeIds) && id !in edges && dep in nodes && target in nodes
    ensures Realises(nodes, edges[id := KronGraph.Edge(nodes[dep], nodes[target])], links + [(dep, target)],
                     edgeIds + [id])
  {
    assert id !in Elems(edgeIds);
    NoDuplicatesAppend(edgeIds, id);
    ElemsAppend(edgeIds, id);
  }

  lemma RealiseNode(nodes: map<string, Id>, edges: map<Id, KronGraph.Edge>, links: seq<(string, string)>,
                    edgeIds: seq<Id>, name: string, id: Id)
    requires Realises(nodes, edges, links, edgeIds) && name !in nodes
    ensures Realises(nodes[name := id], edges, links, edgeIds)
  {
  }

  /** The builder's books: names map one-to-one onto graph nodes, edges are the links, fresh ids stay fresh. */
  ghost predicate Books(graphNodes: set<Id>, edges: map<Id, KronGraph.Edge>, nodes: map<string, Id>, serial: nat,
                        links: seq<(string, string)>, edgeIds: seq<Id>) {
    && Injective(nodes) && (forall n :: n in nodes ==> nodes[n] in graphNodes) && Unused(graphNodes, edges.Keys, serial)
    && Realises(nodes, edges, links, edgeIds)
  }

  lemma BookLink(graphNodes: set<Id>, edges: map<Id, KronGraph.Edge>, nodes: map<string, Id>, serial: nat,
                 links: seq<(string, string)>, edgeIds: seq<Id>, dep: string, target: string)
    requires Books(graphNodes, edges, nodes, serial, links, edgeIds) && dep in nodes && target in nodes
    ensures KronGraph.Uuid(serial) !in edges && nodes[dep] in graphNodes && nodes[target] in graphNodes
    ensures Books(graphNodes, edges[KronGraph.Uuid(serial) := KronGraph.Edge(nodes[dep], nodes[target])],
                  nodes, serial + 1,
                  links + [(dep, target)], edgeIds + [KronGraph.Uuid(serial)])
  {
    RealiseLink(nodes, edges, links, edgeIds, KronGraph.Uuid(serial), dep, target);
  }

  lemma BookNode(graphNodes: set<Id>, edges: map<Id, KronGraph.Edge>, nodes: map<string, Id>, serial: nat,
                 links: seq<(string, string)>, edgeIds: seq<Id>, name: string)
    requires Books(graphNodes, edges, nodes, serial, links, edgeIds) && name !in nodes
    ensures KronGraph.Uuid(serial) !in graphNodes
    ensures Books(graphNodes + {KronGraph.Uuid(serial)}, edges, nodes[name := KronGraph.Uuid(serial)],
                  serial + 1, links, edgeIds)
  {
    RealiseNode(nodes, edges, links, edgeIds, name, KronGraph.Uuid(serial));
  }

  lemma RealisedArcs(nodes: map<string, Id>, edges: map<Id, KronGraph.Edge>, links: seq<(string, string)>,
                     edgeIds: seq<Id>)
    requires Realises(nodes, edges, links, edgeIds)
    ensures Over(nodes, Elems(links)) && KronGraph.Arcs(edges) == Image(nodes, Elems(links))
  {
    forall e | e in Elems(links)
      ensures e.0 in nodes && e.1 in nodes && (nodes[e.0], nodes[e.1]) in KronGraph.Arcs(edges) {
      var k := MemberAt(e, links);
      assert edges[edgeIds[k]] == KronGraph.Edge(nodes[e.0], nodes[e.1]);
    }
    forall a | a in KronGraph.Arcs(edges) ensures a in Image(nodes, Elems(links)) {
      var id :| id in edges && a == (edges[id].head, edges[id].tail);
      assert id in Elems(edgeIds);
      var k := MemberAt(id, edgeIds);
      assert links[k] in Elems(links);
    }
  }

  /** Whether an edge of the graph runs from the node named `dep` to the node named `name`. */
  ghost predicate Precedes(nodes: map<string, Id>, edges: map<Id, KronGraph.Edge>, inEdges: map<Id, set<Id>>,
                           dep: string, name: string) {
    && dep in nodes && name in nodes && nodes[name] in inEdges
    && exists e :: e in inEdges[nodes[name]] && e in edges && edges[e].head == nodes[dep]
  }

  /** The graph's predecessors of every named node, read back through the names. */
  ghost function Predecessors(nodes: map<string, Id>, edges: map<Id, KronGraph.Edge>, inEdges: map<Id, set<Id>>):
      map<string, set<string>> {
    map n | n in nodes :: set d | d in nodes && Precedes(nodes, edges, inEdges, d, n)
  }

  /** One name precedes another in the graph exactly when they are linked. */
  lemma PrecedesIsLink(graphNodes: set<Id>, edges: map<Id, KronGraph.Edge>, inEdges: map<Id, set<Id>>,
                       nodes: map<string, Id>, serial: nat,
                       links: seq<(string, string)>, edgeIds: seq<Id>, dep: string, name: string)
    requires Books(graphNodes, edges, nodes, serial, links, edgeIds) && KronGraph.IsInIndex(inEdges, graphNodes, edges)
    ensures Precedes(nodes, edges, inEdges, dep, name) <==> (dep, name) in Elems(links)
  {
    if Precedes(nodes, edges, inEdges, dep, name) {
      var e :| e in inEdges[nodes[name]] && e in edges && edges[e].head == nodes[dep];
      assert e in Elems(edgeIds);
      var k := MemberAt(e, edgeIds);
      assert links[k] == (dep, name);
    }
    if (dep, name) in Elems(links) {
      var k := MemberAt((dep, name), links);
      assert edgeIds[k] in inEdges[nodes[name]];
    }
  }

  lemma HeadsKnown(heads: seq<string>, names: set<string>)
    requires Elems(heads) <= names
    ensures KnownPrefix(heads, names) == |heads|
  {
    forall i | 0 <= i < |heads| ensures heads[i] in names {
      assert heads[i] in Elems(heads);
    }
    KnownPrefixIs(heads, names, |heads|);
  }

  class Builder {
    const graph: KronGraph.Graph
    var nodes: map<string, Id>
    var currentHeads: seq<string>
    /** Supplies fresh ids, standing in for UUID generation. */
    var nextSerial: nat
    /** The dependency links in the order they were added, and the edge that realises each. */
    ghost var links: seq<(string, string)>
    ghost var edgeIds: seq<Id>

    ghost predicate Valid()
      reads this, graph
    {
      && graph.Valid() && Books(graph.nodes, graph.edges, nodes, nextSerial, links, edgeIds)
      && Elems(currentHeads) <= nodes.Keys
    }

    constructor ()
      ensures Valid() && nodes == map[] && links == [] && currentHeads == [] && fresh(graph)
    {
      graph := new KronGraph.Graph();
      nodes, currentHeads, nextSerial, links, edgeIds := map[], [], 0, [], [];
    }

    /** Adds the edge dependency -> target under a fresh id. */
    method Link(dep: string, target: string)
      requires Valid() && dep in nodes && target in nodes
      modifies this`links, this`edgeIds, this`nextSerial, graph
      ensures Valid()
      ensures links == old(links) + [(dep, target)]
    {
      var id, edge := KronGraph.Uuid(nextSerial), KronGraph.Edge(nodes[dep], nodes[target]);
      BookLink(graph.nodes, graph.edges, nodes, nextSerial, links, edgeIds, dep, target);
      var status := graph.AddEdge(id, edge);
      assert status == KronGraph.Done;
      links, edgeIds, nextSerial := links + [(dep, target)], edgeIds + [id], nextSerial + 1;
    }

    /** Links `target` to the listed dependencies, stopping at the first unknown one. */
    method LinkAll(deps: seq<string>, target: string) returns (r: AddResult)
      requires Valid() && target in nodes
      modifies this`links, this`edgeIds, this`nextSerial, graph
      ensures Valid()
      ensures var known := KnownPrefix(deps, nodes.Keys);
        && links == old(links) + LinksTo(deps[..known], target)
        && r == if known == |deps| then Added else MissingDependency(deps[known])
    {
      var i := 0;
      ghost var done := links;
      while i < |deps|
        invariant 0 <= i <= |deps| && Valid()
        invariant links == done && done == old(links) + LinksTo(deps[..i], target)
        invariant forall k :: 0 <= k < i ==> deps[k] in nodes
      {
        if deps[i] !in nodes {
          KnownPrefixIs(deps, nodes.Keys, i);
          return MissingDependency(deps[i]);
        }
        LinksToNext(deps, i, target);
        Link(deps[i], target);
        done := done + [(deps[i], target)];
        i := i + 1;
      }
      KnownPrefixIs(deps, nodes.Keys, i);
      r := Added;
    }

    /**
     * Adds an operation. With `dependsOn` given, links it to those operations; otherwise to the
     * current head. The node is registered before its dependencies are looked up, so a self
     * dependency is found and makes a self-loop; a missing one is reported after the fact.
     */
    method Add(name: string, dependsOn: Option<seq<string>>) returns (r: AddResult)
      requires Valid()
      modifies this, graph
      ensures Valid()
      ensures r.DuplicateName? <==> name in old(nodes)
      ensures r.DuplicateName? ==> nodes == old(nodes) && links == old(links) && currentHeads == old(currentHeads)
      ensures !r.DuplicateName? ==>
              nodes.Keys == old(nodes).Keys + {name} && forall n :: n in old(nodes) ==> nodes[n] == old(nodes)[n]
      ensures !r.DuplicateName? ==>
        var deps := dependsOn.GetOr(old(currentHeads));
        var known := KnownPrefix(deps, nodes.Keys);
        && links == old(links) + LinksTo(deps[..known], name)
        && r == (if known == |deps| then Added else MissingDependency(deps[known]))
        && currentHeads == if r.Added? then [name] else old(currentHeads)
      ensures dependsOn.None? ==> !r.MissingDependency?
    {
      if name in nodes {
        return DuplicateName;
      }
      NewNode(name);
      if dependsOn.None? {
        HeadsKnown(currentHeads, nodes.Keys);
      }
      r := Attach(dependsOn.GetOr(currentHeads), name);
    }

    /** Links a registered node to its dependencies and makes it the only head if all are known. */
    method Attach(deps: seq<string>, name: string) returns (r: AddResult)
      requires Valid() && name in nodes
      modifies this`links, this`edgeIds, this`nextSerial, this`currentHeads, graph
      ensures Valid()
      ensures var known := KnownPrefix(deps, nodes.Keys);
        && links == old(links) + LinksTo(deps[..known], name)
        && r == (if known == |deps| then Added else MissingDependency(deps[known]))
        && currentHeads == if r.Added? then [name] else old(currentHeads)
    {
      r := LinkAll(deps, name);
      if r.Added? {
        currentHeads := [name];
      }
    }

    method NewNode(name: string)
      requires Valid() && name !in nodes
      modifies this`nodes, this`nextSerial, graph
      ensures Valid() && nodes == old(nodes)[name := KronGraph.Uuid(old(nextSerial))]
    {
      var id := KronGraph.Uuid(nextSerial);
      BookNode(graph.nodes, graph.edges, nodes, nextSerial, links, edgeIds, name);
      var _ := graph.AddNode(id);
      nodes, nextSerial := nodes[name := id], nextSerial + 1;
    }

    /** Accepts the graph exactly when its links are acyclic. */
    method Build() returns (ok: bool)
      requires Valid()
      ensures ok <==> Acyclic(Elems(links))
    {
      RealisedArcs(nodes, graph.edges, links, edgeIds);
      ImageAcyclic(nodes, Elems(links));
      ok := graph.IsAcyclic();
    }
  }

  /** How many dependencies come before the first unknown one. */
  ghost function KnownPrefix(deps: seq<string>, names: set<string>): (k: nat)
    ensures k <= |deps| && (forall i :: 0 <= i < k ==> deps[i] in names) && (k < |deps| ==> deps[k] !in names)
  {
    if deps == [] || deps[0] !in names then 0 else 1 + KnownPrefix(deps[1..], names)
  }

  lemma KnownPrefixIs(deps: seq<string>, names: set<string>, k: nat)
    requires k <= |deps| && (forall i :: 0 <= i < k ==> deps[i] in names) && (k < |deps| ==> deps[k] !in names)
    ensures KnownPrefix(deps, names) == k
  {
  }

  ghost function LinksTo(deps: seq<string>, target: string): seq<(string, string)> {
    if deps == [] then [] else LinksTo(deps[..|deps| - 1], target) + [(deps[|deps| - 1], target)]
  }

  lemma LinksToNext(deps: seq<string>, i: nat, target: string)
    requires i < |deps|
    ensures LinksTo(deps[..i + 1], target) == LinksTo(deps[..i], target) + [(deps[i], target)]
  {
    assert deps[..i + 1][..i] == deps[..i];
  }

  lemma {:induction false} LinksToMember(deps: seq<string>, target: string)
    ensures forall e :: e in LinksTo(deps, target) <==> e.1 == target && e.0 in deps
    ensures NoDuplicates(deps) ==> NoDuplicates(LinksTo(deps, target))
  {
    if deps != [] {
      var n := |deps| - 1;
      LinksToMember(deps[..n], target);
      assert deps == deps[..n] + [deps[n]];
      if NoDuplicates(deps) {
        NoDuplicatesAppend(LinksTo(deps[..n], target), (deps[n], target));
      }
    }
  }

  // ------------------------------------------------------------------ workflow to graph

  /** The first phase with the given name. */
  function FindPhase(phases: seq<Phase>, name: string): (r: Option<Phase>)
    ensures r.Some? <==> exists i :: 0 <= i < |phases| && phases[i].name == name
    ensures r.Some? ==> r.value in phases && r.value.name == name
  {
    if phases == [] then None
    else if phases[0].name == name then Some(phases[0])
    else
      var rest := FindPhase(phases[1..], name);
      assert forall i :: 0 < i < |phases| ==> phases[i] == phases[1..][i - 1];
      rest
  }

  ghost function DepsOf(w: Workflow, name: string): seq<string> {
    match FindPhase(w.phases, name)
    case Some(p) => PhaseDeps(p.requires_)
    case None => []
  }

  /** The links a builder makes when phases are added in this order. */
  ghost function OrderLinks(w: Workflow, order: seq<string>): seq<(string, string)> {
    if order == [] then []
    else
      var name := order[|order| - 1];
      OrderLinks(w, order[..|order| - 1]) + LinksTo(DepsOf(w, name), name)
  }

  lemma {:induction false} OrderLinksMember(w: Workflow, order: seq<string>)
    ensures forall e :: e in OrderLinks(w, order) <==> e.1 in order && e.0 in DepsOf(w, e.1)
  {
    if order != [] {
      var n := |order| - 1;
      OrderLinksMember(w, order[..n]);
      LinksToMember(DepsOf(w, order[n]), order[n]);
      assert order == order[..n] + [order[n]];
    }
  }

  lemma {:induction false} RefsOfMember(names: set<string>, phase: string, requires_: seq<Require>)
    ensures forall e :: e in RefsOf(names, phase, requires_) <==>
            e.1 == phase && e.0 in names && e.0 in PhaseDeps(requires_)
  {
    if requires_ != [] {
      RefsOfMember(names, phase, requires_[..|requires_| - 1]);
    }
  }

  lemma {:induction false} ReferencesMember(names: set<string>, phases: seq<Phase>, e: (string, string))
    ensures e in References(names, phases) <==>
            exists i :: 0 <= i < |phases| && phases[i].name == e.1 &&
                        e.0 in names && e.0 in PhaseDeps(phases[i].requires_)
  {
    if phases != [] {
      var n := |phases| - 1;
      ReferencesMember(names, phases[..n], e);
      RefsOfMember(names, phases[n].name, phases[n].requires_);
      assert forall i :: 0 <= i < n ==> phases[..n][i] == phases[i];
    }
  }

  /** With unique names and known references, the dependency edges are those of each phase's own requires. */
  lemma EdgesAreDeps(w: Workflow, e: (string, string))
    requires UniqueNames(w) && AllKnown(w)
    ensures e in DependencyEdges(w) <==> e.0 in DepsOf(w, e.1)
  {
    var names := PhaseNames(w.phases);
    ReferencesMember(names, w.phases, e);
    var found := FindPhase(w.phases, e.1);
    if found.Some? {
      var i := MemberAt(found.value, w.phases);
      PhaseDepsMember(w.phases[i].requires_, e.0);
      assert PhaseKnown(names, w.phases[i]);
    }
  }

  /** On a compiled workflow, the links are the dependency edges. */
  lemma LinksAreReferences(w: Workflow, order: seq<string>)
    requires Compiled(w, order)
    ensures Elems(OrderLinks(w, order)) == DependencyEdges(w)
  {
    OrderLinksMember(w, order);
    ReferencesNames(PhaseNames(w.phases), w.phases);
    forall e ensures e in Elems(OrderLinks(w, order)) <==> e in DependencyEdges(w) {
      EdgesAreDeps(w, e);
      if e in DependencyEdges(w) {
        assert e.1 in Elems(order);
      }
    }
  }

  /** With known references, a phase's own references are the links to its dependencies. */
  lemma {:induction false} RefsOfIsLinksTo(names: set<string>, phase: string, requires_: seq<Require>)
    requires KnownRefs(names, requires_)
    ensures RefsOf(names, phase, requires_) == LinksTo(PhaseDeps(requires_), phase)
  {
    if requires_ != [] {
      var n := |requires_| - 1;
      assert forall i :: 0 <= i < n ==> requires_[..n][i] == requires_[i];
      RefsOfIsLinksTo(names, phase, requires_[..n]);
      var deps := PhaseDeps(requires_);
      if requires_[n].PhaseRef? {
        assert deps[..|deps| - 1] == PhaseDeps(requires_[..n]);
      }
    }
  }

  /** A list of references without repeats has none in the block of any one phase. */
  lemma {:induction false} BlockHasNoRepeat(names: set<string>, phases: seq<Phase>, i: nat)
    requires i < |phases| && NoDuplicates(References(names, phases))
    ensures NoDuplicates(RefsOf(names, phases[i].name, phases[i].requires_))
  {
    var n := |phases| - 1;
    var all, front := References(names, phases), References(names, phases[..n]);
    var block := RefsOf(names, phases[n].name, phases[n].requires_);
    assert all == front + block;
    if i == n {
      forall a, b | 0 <= a < b < |block| ensures block[a] != block[b] {
        assert all[|front| + a] == block[a] && all[|front| + b] == block[b];
      }
    } else {
      forall a, b | 0 <= a < b < |front| ensures front[a] != front[b] {
        assert all[a] == front[a] && all[b] == front[b];
      }
      BlockHasNoRepeat(names, phases[..n], i);
    }
  }

  lemma DepsHaveNoRepeat(w: Workflow, order: seq<string>, name: string)
    requires Compiled(w, order)
    ensures NoDuplicates(LinksTo(DepsOf(w, name), name))
  {
    var found := FindPhase(w.phases, name);
    if found.Some? {
      var i := MemberAt(found.value, w.phases);
      assert PhaseKnown(PhaseNames(w.phases), w.phases[i]);
      RefsOfIsLinksTo(PhaseNames(w.phases), name, found.value.requires_);
      BlockHasNoRepeat(PhaseNames(w.phases), w.phases, i);
    }
  }

  lemma {:induction false} LinksHaveNoRepeat(w: Workflow, order: seq<string>)
    requires NoDuplicates(order) && forall name :: NoDuplicates(LinksTo(DepsOf(w, name), name))
    ensures NoDuplicates(OrderLinks(w, order))
  {
    if order != [] {
      var front, name := order[..|order| - 1], order[|order| - 1];
      LinksHaveNoRepeat(w, front);
      OrderLinksMember(w, front);
      LinksToMember(DepsOf(w, name), name);
      forall e | e in OrderLinks(w, front) ensures e !in LinksTo(DepsOf(w, name), name) {
        var k := MemberAt(e.1, front);
        assert order[k] != name;
      }
      NoDuplicatesConcat(OrderLinks(w, front), LinksTo(DepsOf(w, name), name));
    }
  }

  datatype BuildResult = Built | PhaseNotFound(name: string) | AddFailed(reason: AddResult) | CyclicGraph

  /**
   * Adds the phases of a workflow in the given order, each linked to the phases it requires, and
   * validates the graph. For a workflow the resolver accepted, no dependency is ever missing, the
   * links are exactly the phase references, one edge each, and the graph is never refused as cyclic.
   */
  method BuildGraph(w: Workflow, order: seq<string>) returns (r: BuildResult, b: Builder)
    ensures fresh(b) && fresh(b.graph) && b.Valid()
    ensures r.Built? ==> b.links == OrderLinks(w, order) && Acyclic(Elems(b.links))
    ensures Compiled(w, order) ==> r.Built? && Elems(b.links) == DependencyEdges(w) && NoDuplicates(b.links)
    ensures Compiled(w, order) ==> Predecessors(b.nodes, b.graph.edges, b.graph.inEdges) == RequiredPhases(w)
  {
    b := new Builder();
    var k := 0;
    while k < |order|
      invariant 0 <= k <= |order| && b.Valid() && fresh(b) && fresh(b.graph)
      invariant b.links == OrderLinks(w, order[..k]) && b.nodes.Keys == Elems(order[..k])
    {
      OrderLinksNext(w, order, k);
      DepsPlaced(w, order, k);
      r := AddPhase(b, w, order[k]);
      if !r.Built? {
        return;
      }
      k := k + 1;
    }
    assert order[..k] == order;
    CompiledLinks(w, order);
    if Compiled(w, order) {
      PredecessorsAreRequired(b, w, order);
    }
    var ok := b.Build();
    r := if ok then Built else CyclicGraph;
  }

  /** The phases each phase requires. */
  ghost function RequiredPhases(w: Workflow): map<string, set<string>> {
    map n | n in PhaseNames(w.phases) :: Elems(DepsOf(w, n))
  }

  lemma PredecessorsAreRequired(b: Builder, w: Workflow, order: seq<string>)
    requires b.Valid() && Compiled(w, order) && b.nodes.Keys == Elems(order) && Elems(b.links) == DependencyEdges(w)
    ensures Predecessors(b.nodes, b.graph.edges, b.graph.inEdges) == RequiredPhases(w)
  {
    var required := RequiredPhases(w);
    forall d, n | n in b.nodes ensures Precedes(b.nodes, b.graph.edges, b.graph.inEdges, d, n) <==> d in required[n] {
      PredecessorIsRequired(b, w, d, n);
    }
    PredecessorSets(b.nodes, b.graph.edges, b.graph.inEdges, required);
  }

  lemma PredecessorSets(nodes: map<string, Id>, edges: map<Id, KronGraph.Edge>, inEdges: map<Id, set<Id>>,
                        preds: map<string, set<string>>)
    requires preds.Keys == nodes.Keys
    requires forall d, n :: n in nodes ==> (Precedes(nodes, edges, inEdges, d, n) <==> d in preds[n])
    ensures Predecessors(nodes, edges, inEdges) == preds
  {
    forall n | n in nodes ensures Predecessors(nodes, edges, inEdges)[n] == preds[n] {
      forall d ensures d in Predecessors(nodes, edges, inEdges)[n] <==> d in preds[n] {
      }
    }
  }

  lemma PredecessorIsRequired(b: Builder, w: Workflow, d: string, n: string)
    requires b.Valid() && UniqueNames(w) && AllKnown(w) && Elems(b.links) == DependencyEdges(w) && n in b.nodes
    ensures Precedes(b.nodes, b.graph.edges, b.graph.inEdges, d, n) <==> d in DepsOf(w, n)
  {
    PrecedesIsLink(b.graph.nodes, b.graph.edges, b.graph.inEdges, b.nodes, b.nextSerial, b.links, b.edgeIds, d, n);
    EdgesAreDeps(w, (d, n));
  }

  /** Adds one phase under its name, linked to the phases it requires. */
  method AddPhase(b: Builder, w: Workflow, name: string) returns (r: BuildResult)
    requires b.Valid()
    modifies b, b.graph
    ensures b.Valid()
    ensures r.Built? ==>
            b.links == old(b.links) + LinksTo(DepsOf(w, name), name) && b.nodes.Keys == old(b.nodes).Keys + {name}
    ensures FindPhase(w.phases, name).Some? && name !in old(b.nodes) &&
            (forall d :: d in DepsOf(w, name) ==> d in old(b.nodes)) ==>
            r.Built?
  {
    var phase := FindPhase(w.phases, name);
    if phase.None? {
      return PhaseNotFound(name);
    }
    ghost var deps := PhaseDeps(phase.value.requires_);
    var added := b.Add(name, Some(PhaseDeps(phase.value.requires_)));
    assert deps[..|deps|] == deps;
    r := if added.Added? then Built else AddFailed(added);
  }

  lemma OrderLinksNext(w: Workflow, order: seq<string>, k: nat)
    requires k < |order|
    ensures OrderLinks(w, order[..k + 1]) == OrderLinks(w, order[..k]) + LinksTo(DepsOf(w, order[k]), order[k])
    ensures Elems(order[..k + 1]) == Elems(order[..k]) + {order[k]}
  {
    assert order[..k + 1][..k] == order[..k];
    assert order[..k + 1] == order[..k] + [order[k]];
    ElemsAppend(order[..k], order[k]);
  }

  lemma CompiledLinks(w: Workflow, order: seq<string>)
    ensures Compiled(w, order) ==> Elems(OrderLinks(w, order)) == DependencyEdges(w) && Acyclic(DependencyEdges(w))
    ensures Compiled(w, order) ==> NoDuplicates(OrderLinks(w, order))
  {
    if Compiled(w, order) {
      forall name ensures NoDuplicates(LinksTo(DepsOf(w, name), name)) {
        DepsHaveNoRepeat(w, order, name);
      }
      LinksHaveNoRepeat(w, order);
      LinksAreReferences(w, order);
      OrderAcyclic(w, order);
    }
  }

  /** In a compiled order, the k-th phase exists and is new, and all its dependencies come before it. */
  lemma DepsPlaced(w: Workflow, order: seq<string>, k: nat)
    requires k < |order|
    ensures Compiled(w, order) ==> FindPhase(w.phases, order[k]).Some? && order[k] !in Elems(order[..k])
    ensures Compiled(w, order) ==> forall d :: d in DepsOf(w, order[k]) ==> d in Elems(order[..k])
  {
    if Compiled(w, order) {
      assert order[k] in Elems(order);
      forall d | d in DepsOf(w, order[k]) ensures d in Elems(order[..k]) {
        EdgesAreDeps(w, (d, order[k]));
      }
    }
  }

  lemma OrderAcyclic(w: Workflow, order: seq<string>)
    requires Compiled(w, order)
    ensures Acyclic(DependencyEdges(w))
  {
    ReferencesNames(PhaseNames(w.phases), w.phases);
    forall e | e in DependencyEdges(w) ensures e.1 in order {
      assert e.1 in Elems(order);
    }
    SourcesFirstAcyclic(DependencyEdges(w), order);
  }
}
