/** The correlation graph (src/infrastructure/graph_store/redis_store.py): adjacency sets and
    edge-property hashes, two indexes of one undirected typed graph. Node ids and edge
    types are only ever compared, so numbers stand for them; GraphKeys shows that the
    store's text keys keep them apart. */
module GraphStore {
  import opened Wrappers

  type Id = nat
  type EdgeType = nat
  type Props = map<string, string>

  /** One direction of an edge: `target` is in the adjacency set of `source`. */
  datatype Edge = Edge(source: Id, target: Id, etype: EdgeType)
  {
    function Reverse(): Edge
    {
      Edge(target, source, etype)
    }
  }

  datatype EdgeRecord = EdgeRecord(edge: Edge, props: Props)
  datatype NodeRecord = NodeRecord(id: Id, props: Props)

  datatype Graph = Graph(
    nodes: map<Id, Props>,
    allNodes: set<Id>,
    adjacent: set<Edge>,
    properties: map<Edge, Props>)

  /** The abstract graph: unordered pairs with a type. */
  datatype Link = Link(ends: set<Id>, etype: EdgeType)

  function LinkOf(e: Edge): Link
  {
    Link({e.source, e.target}, e.etype)
  }

  function Links(g: Graph): set<Link>
  {
    set e | e in g.adjacent :: LinkOf(e)
  }

  /** Adjacency is symmetric, and properties are kept, non-empty, for adjacent pairs only. */
  predicate Consistent(g: Graph)
  {
    && (forall e :: e in g.adjacent ==> e.Reverse() in g.adjacent)
    && (forall e :: e in g.properties ==> e in g.adjacent && g.properties[e] != map[])
  }

  function Neighbors(g: Graph, n: Id): set<Id>
  {
    set e | e in g.adjacent && e.source == n :: e.target
  }

  function NeighborsBy(g: Graph, n: Id, t: EdgeType): set<Id>
  {
    set e | e in g.adjacent && e.source == n && e.etype == t :: e.target
  }

  /** The types for which the node has a non-empty adjacency set. */
  function TypesAt(g: Graph, n: Id): set<EdgeType>
  {
    set e | e in g.adjacent && e.source == n :: e.etype
  }

  /** The types for which there are properties in this direction. */
  function TypesBetween(g: Graph, a: Id, b: Id): set<EdgeType>
  {
    set e | e in g.properties && e.source == a && e.target == b :: e.etype
  }

  lemma LinkMember(g: Graph, e: Edge)
    requires Consistent(g)
    ensures LinkOf(e) in Links(g) <==> e in g.adjacent
  {
    if LinkOf(e) in Links(g) {
      var f :| f in g.adjacent && LinkOf(f) == LinkOf(e);
      SameLink(e, f);
      assert f.Reverse().Reverse() == f;
    }
  }

  /** Two directed edges have the same link exactly when they agree up to direction. */
  lemma SameLink(e: Edge, f: Edge)
    ensures LinkOf(e) == LinkOf(f) <==> f == e || f == e.Reverse()
  {
    if LinkOf(e) == LinkOf(f) {
      assert e.source in LinkOf(f).ends && e.target in LinkOf(f).ends;
      assert f.source in LinkOf(e).ends && f.target in LinkOf(e).ends;
    }
    assert {e.source, e.target} == {e.target, e.source};
  }

  // ---- updates ----

  function EdgeAdded(g: Graph, e: Edge, props: Props): Graph
  {
    g.(adjacent := g.adjacent + {e, e.Reverse()},
       properties := if props == map[] then g.properties
                     else g.properties[e := (if e in g.properties then g.properties[e] else map[]) + props])
  }

  function EdgeRemoved(g: Graph, e: Edge): Graph
  {
    g.(adjacent := g.adjacent - {e, e.Reverse()}, properties := g.properties - {e, e.Reverse()})
  }

  predicate Touches(e: Edge, n: Id)
  {
    e.source == n || e.target == n
  }

  /** The graph without the node: no hash, no membership, no adjacency and no properties
      of its edges, and everything else as it was. */
  function NodeDeleted(g: Graph, n: Id): Graph
  {
    Graph(g.nodes - {n},
          g.allNodes - {n},
          set e | e in g.adjacent && !Touches(e, n),
          map e | e in g.properties && !Touches(e, n) :: g.properties[e])
  }

  lemma AddRefines(g: Graph, e: Edge, props: Props)
    requires Consistent(g)
    ensures var h := EdgeAdded(g, e, props); Consistent(h) && Links(h) == Links(g) + {LinkOf(e)}
  {
    var h := EdgeAdded(g, e, props);
    assert LinkOf(e.Reverse()) == LinkOf(e) by {
      SameLink(e, e.Reverse());
    }
    forall l ensures l in Links(h) <==> l in Links(g) + {LinkOf(e)} {
      if l in Links(g) {
        var f :| f in g.adjacent && LinkOf(f) == l;
        assert f in h.adjacent;
      }
      assert e in h.adjacent;
    }
    assert forall k :: k in props ==> k in (if e in g.properties then g.properties[e] else map[]) + props;
  }

  lemma RemoveRefines(g: Graph, e: Edge)
    requires Consistent(g)
    ensures var h := EdgeRemoved(g, e); Consistent(h) && Links(h) == Links(g) - {LinkOf(e)}
  {
    var h := EdgeRemoved(g, e);
    forall l ensures l in Links(h) <==> l in Links(g) - {LinkOf(e)} {
      if l in Links(g) {
        var f :| f in g.adjacent && LinkOf(f) == l;
        SameLink(e, f);
        if l != LinkOf(e) {
          assert f in h.adjacent;
        }
      }
      if l in Links(h) {
        var f :| f in h.adjacent && LinkOf(f) == l;
        SameLink(e, f);
      }
    }
  }

  lemma DeleteRefines(g: Graph, n: Id)
    requires Consistent(g)
    ensures var h := NodeDeleted(g, n); Consistent(h) && Links(h) == set l | l in Links(g) && n !in l.ends
  {
    var h := NodeDeleted(g, n);
    forall l ensures l in Links(h) <==> l in Links(g) && n !in l.ends {
      if l in Links(g) && n !in l.ends {
        var f :| f in g.adjacent && LinkOf(f) == l;
        assert f in h.adjacent;
      }
    }
  }

  // ---- what the queries report ----

  predicate NoRepeats(s: seq<Id>)
  {
    forall i, j :: 0 <= i < j < |s| ==> s[i] != s[j]
  }

  predicate DistinctEdges(records: seq<EdgeRecord>)
  {
    forall i, j :: 0 <= i < j < |records| ==> records[i].edge != records[j].edge
  }

  /** `get_edges` with a type: one record per neighbour, with the properties of either
      direction, the node's own first, or none. */
  predicate ReportsTyped(g: Graph, n: Id, t: EdgeType, r: EdgeRecord)
  {
    && r.edge.source == n && r.edge.etype == t && r.edge in g.adjacent
    && r.props == if r.edge in g.properties then g.properties[r.edge]
                  else if r.edge.Reverse() in g.properties then g.properties[r.edge.Reverse()] else map[]
  }

  /** `get_edges` without a type: for each neighbour, all edges with properties away from the
      node, and only if there are none, those towards it. */
  predicate ReportsUntyped(g: Graph, n: Id, r: EdgeRecord)
  {
    && r.edge.source == n
    && (|| (r.edge in g.properties && r.props == g.properties[r.edge])
        || (TypesBetween(g, n, r.edge.target) == {} && r.edge.Reverse() in g.properties
            && r.props == g.properties[r.edge.Reverse()]))
  }

  predicate Reports(g: Graph, n: Id, etype: Option<EdgeType>, r: EdgeRecord)
  {
    if etype.Some? then ReportsTyped(g, n, etype.value, r) else ReportsUntyped(g, n, r)
  }

  predicate HasProperties(g: Graph, e: Edge)
  {
    e in g.properties || e.Reverse() in g.properties
  }

  /** Seen from one end, an edge with properties is missed exactly when its properties lie in
      the other direction only and some other edge of the pair has properties in this one. */
  lemma MissedAtOneEndExactly(g: Graph, e: Edge)
    requires Consistent(g) && HasProperties(g, e)
    ensures !(exists r: EdgeRecord :: r.edge == e && ReportsUntyped(g, e.source, r))
            <==> e !in g.properties && TypesBetween(g, e.source, e.target) != {}
  {
    if e in g.properties {
      assert ReportsUntyped(g, e.source, EdgeRecord(e, g.properties[e]));
    } else if TypesBetween(g, e.source, e.target) == {} {
      assert ReportsUntyped(g, e.source, EdgeRecord(e, g.properties[e.Reverse()]));
    }
  }

  /** But from the end its properties start at, it is always reported. */
  lemma NeverMissedAtItsOwnEnd(g: Graph, e: Edge)
    requires Consistent(g) && e in g.properties
    ensures ReportsUntyped(g, e.source, EdgeRecord(e, g.properties[e]))
  {
  }

  // ---- the store ----

  class RedisGraphStore {
    var nodes: map<Id, Props>
    var allNodes: set<Id>
    var adjacent: set<Edge>
    var properties: map<Edge, Props>

    constructor ()
      ensures Valid() && State() == Graph(map[], {}, {}, map[])
    {
      nodes, allNodes, adjacent, properties := map[], {}, {}, map[];
    }

    function State(): Graph
      reads this
    {
      Graph(nodes, allNodes, adjacent, properties)
    }

    predicate Valid()
      reads this
    {
      Consistent(State())
    }

    /** `add_node`. Storing a hash without fields is an error of the store, raised before
        anything is written. */
    method AddNode(id: Id, props: Props) returns (raises: bool)
      requires Valid()
      modifies this`nodes, this`allNodes
      ensures Valid() && raises == (props == map[])
      ensures raises ==> State() == old(State())
      ensures !raises ==> State() == old(State()).(
        nodes := old(nodes)[id := (if id in old(nodes) then old(nodes)[id] else map[]) + props],
        allNodes := old(allNodes) + {id})
    {
      raises := props == map[];
      if !raises {
        nodes := nodes[id := (if id in nodes then nodes[id] else map[]) + props];
        allNodes := allNodes + {id};
      }
    }

    method AddEdge(from: Id, to: Id, etype: EdgeType, props: Props)
      requires Valid()
      modifies this`adjacent, this`properties
      ensures Valid() && State() == EdgeAdded(old(State()), Edge(from, to, etype), props)
      ensures Links(State()) == old(Links(State())) + {LinkOf(Edge(from, to, etype))}
      ensures adjacent == old(adjacent) + {Edge(from, to, etype), Edge(to, from, etype)}
      ensures var edge := Edge(from, to, etype);
        properties == if props == map[] then old(properties)
                      else old(properties)[edge := (if edge in old(properties) then old(properties)[edge] else map[]) + props]
    {
      var edge := Edge(from, to, etype);
      AddRefines(State(), edge, props);
      adjacent := adjacent + {edge};
      adjacent := adjacent + {Edge(to, from, etype)};
      if props != map[] {
        properties := properties[edge := (if edge in properties then properties[edge] else map[]) + props];
      }
      assert State().adjacent == EdgeAdded(old(State()), edge, props).adjacent;
    }

    /** `remove_edge`: true exactly when the link was there. */
    method RemoveEdge(from: Id, to: Id, etype: EdgeType) returns (removed: bool)
      requires Valid()
      modifies this`adjacent, this`properties
      ensures Valid() && State() == EdgeRemoved(old(State()), Edge(from, to, etype))
      ensures Links(State()) == old(Links(State())) - {LinkOf(Edge(from, to, etype))}
      ensures removed <==> LinkOf(Edge(from, to, etype)) in old(Links(State()))
      ensures adjacent == old(adjacent) - {Edge(from, to, etype), Edge(to, from, etype)}
      ensures properties == old(properties) - {Edge(from, to, etype), Edge(to, from, etype)}
    {
      var edge := Edge(from, to, etype);
      RemoveRefines(State(), edge);
      LinkMember(State(), edge);
      removed := edge in adjacent;
      adjacent := adjacent - {edge};
      adjacent := adjacent - {Edge(to, from, etype)};
      properties := properties - {edge};
      properties := properties - {Edge(to, from, etype)};
      assert State() == EdgeRemoved(old(State()), edge);
    }

    /** `get_neighbors`: the union of the node's adjacency sets, or the one asked for. */
    method GetNeighbors(n: Id, etype: Option<EdgeType>) returns (found: set<Id>)
      ensures found == if etype.Some? then NeighborsBy(State(), n, etype.value) else Neighbors(State(), n)
    {
      if etype.Some? {
        return NeighborsBy(State(), n, etype.value);
      }
      found := {};
      var keys := TypesAt(State(), n);
      ghost var done := {};
      while keys != {}
        invariant keys + done == TypesAt(State(), n)
        invariant found == set e | e in adjacent && e.source == n && e.etype in done :: e.target
        decreases |keys|
      {
        var t :| t in keys;
        keys := keys - {t};
        found := found + NeighborsBy(State(), n, t);
        done := done + {t};
      }
      forall e | e in adjacent && e.source == n ensures e.etype in done {
        assert e.etype in TypesAt(State(), n);
      }
    }

    /** `delete_node`: every trace of the node goes, everything else stays. */
    method DeleteNode(n: Id)
      requires Valid()
      modifies this
      ensures Valid() && State() == NodeDeleted(old(State()), n)
      ensures Links(State()) == set l | l in old(Links(State())) && n !in l.ends
      ensures nodes == old(nodes) - {n} && allNodes == old(allNodes) - {n}
      ensures adjacent == set e | e in old(adjacent) && e.source != n && e.target != n
      ensures properties == map e | e in old(properties) && e.source != n && e.target != n :: old(properties)[e]
    {
      ghost var start := State();
      DeleteRefines(start, n);
      var neighbors := GetNeighbors(n, None);
      DropAdjacency(n, neighbors);
      DropKeys(n);
      assert State() == NodeDeleted(start, n);
    }

    /** The node's own hash, the property hashes at both its ends, and its membership. */
    method DropKeys(n: Id)
      modifies this`nodes, this`properties, this`allNodes
      ensures nodes == old(nodes) - {n} && allNodes == old(allNodes) - {n}
      ensures properties == map e | e in old(properties) && !Touches(e, n) :: old(properties)[e]
    {
      nodes := nodes - {n};
      var edgeKeys := set e | e in properties && e.source == n;
      var reverseKeys := set e | e in properties && e.target == n;
      properties := properties - edgeKeys;
      properties := properties - reverseKeys;
      allNodes := allNodes - {n};
    }

    /** The node leaves its neighbours' adjacency sets of one type. */
    method LeaveNeighbors(n: Id, t: EdgeType, neighbors: set<Id>)
      modifies this`adjacent
      ensures adjacent == set e | e in old(adjacent) && !(e.target == n && e.etype == t && e.source in neighbors)
    {
      ghost var start := adjacent;
      var rest := neighbors;
      while rest != {}
        invariant rest <= neighbors
        invariant adjacent == set e | e in start && !(e.target == n && e.etype == t && e.source in neighbors - rest)
        decreases |rest|
      {
        var m :| m in rest;
        rest := rest - {m};
        adjacent := adjacent - {Edge(m, n, t)};
      }
    }

    /** The loop over the node's adjacency sets: each is deleted, after the node has been
        taken out of the matching sets of all its neighbours. */
    method DropAdjacency(n: Id, neighbors: set<Id>)
      requires Valid() && neighbors == Neighbors(State(), n)
      modifies this`adjacent
      ensures adjacent == set e | e in old(adjacent) && !Touches(e, n)
    {
      ghost var start := adjacent;
      TouchingIsCovered(State(), n);
      var keys := TypesAt(State(), n);
      ghost var done := {};
      while keys != {}
        invariant keys + done == TypesAt(old(State()), n)
        invariant adjacent == set e | e in start && !(e.etype in done && Near(e, n, neighbors))
        decreases |keys|
      {
        var t :| t in keys;
        keys := keys - {t};
        LeaveNeighbors(n, t, neighbors);
        adjacent := set e | e in adjacent && !(e.source == n && e.etype == t);
        done := done + {t};
      }
    }

    // ---- queries ----

    /** The records for one direction of a pair: the loop over its property hashes. */
    method DirectionRecords(n: Id, m: Id, from: Id, to: Id) returns (edges: seq<EdgeRecord>)
      ensures forall r :: r in edges <==>
        r.edge.source == n && r.edge.target == m && Edge(from, to, r.edge.etype) in properties
        && r.props == properties[Edge(from, to, r.edge.etype)]
      ensures DistinctEdges(edges)
      ensures edges == [] <==> TypesBetween(State(), from, to) == {}
    {
      edges := [];
      var keys := TypesBetween(State(), from, to);
      ghost var done := {};
      while keys != {}
        invariant keys + done == TypesBetween(State(), from, to) && keys !! done
        invariant forall r :: r in edges <==>
          r.edge.source == n && r.edge.target == m && r.edge.etype in done
          && Edge(from, to, r.edge.etype) in properties && r.props == properties[Edge(from, to, r.edge.etype)]
        invariant DistinctEdges(edges) && (edges == [] <==> done == {})
        decreases |keys|
      {
        var t :| t in keys;
        keys := keys - {t};
        assert Edge(from, to, t) in properties;
        edges := edges + [EdgeRecord(Edge(n, m, t), properties[Edge(from, to, t)])];
        done := done + {t};
      }
      forall r: EdgeRecord | Edge(from, to, r.edge.etype) in properties ensures r.edge.etype in done {
        assert r.edge.etype in TypesBetween(State(), from, to);
      }
    }

    /** The body of the loop over the neighbours. */
    method NeighborRecords(n: Id, m: Id, etype: Option<EdgeType>) returns (edges: seq<EdgeRecord>)
      requires etype.Some? ==> Edge(n, m, etype.value) in adjacent
      ensures forall r :: r in edges <==> r.edge.target == m && Reports(State(), n, etype, r)
      ensures DistinctEdges(edges)
    {
      if etype.Some? {
        var edge := Edge(n, m, etype.value);
        var props := if edge in properties then properties[edge]
                     else if edge.Reverse() in properties then properties[edge.Reverse()] else map[];
        return [EdgeRecord(edge, props)];
      }
      edges := DirectionRecords(n, m, n, m);
      NoTypesNoEdges(State(), n, m);
      if edges == [] {
        edges := DirectionRecords(n, m, m, n);
      }
    }

    method GetEdges(n: Id, etype: Option<EdgeType>) returns (edges: seq<EdgeRecord>)
      requires Valid()
      ensures forall r :: r in edges <==> Reports(State(), n, etype, r)
      ensures DistinctEdges(edges)
    {
      edges := [];
      var neighbors := GetNeighbors(n, etype);
      var rest := neighbors;
      while rest != {}
        invariant rest <= neighbors
        invariant forall r :: r in edges <==> r.edge.target in neighbors - rest && Reports(State(), n, etype, r)
        invariant DistinctEdges(edges)
        decreases |rest|
      {
        var m :| m in rest;
        rest := rest - {m};
        var more := NeighborRecords(n, m, etype);
        DistinctJoin(edges, more);
        edges := edges + more;
      }
      forall r | Reports(State(), n, etype, r) ensures r.edge.target in neighbors {
        ReportedAreNeighbors(State(), n, etype, r);
      }
    }

    /** `get_graph`: for every id in turn its edges, unless the edge has been seen in either
        direction or ends outside the list. Each pair of listed nodes and each type with
        properties is reported once, from one end or the other, and nothing else is. */
    method GetGraph(nodeIds: Option<seq<Id>>, reply: seq<Id>)
      returns (found: seq<NodeRecord>, edges: seq<EdgeRecord>, ghost ids: seq<Id>)
      requires Valid() && forall n :: n in reply <==> n in allNodes
      ensures ids == nodeIds.GetOr(reply)
      ensures forall r :: r in found <==> r.id in ids && r.id in nodes && nodes[r.id] != map[] && r.props == nodes[r.id]
      ensures forall r :: r in edges ==> r.edge.source in ids && r.edge.target in ids && ReportsUntyped(State(), r.edge.source, r)
      ensures forall e :: Covered(edges, e) <==> e.source in ids && e.target in ids && HasProperties(State(), e)
      ensures forall i, j :: 0 <= i < j < |edges| ==> LinkOf(edges[i].edge) != LinkOf(edges[j].edge)
    {
      var listed := nodeIds.GetOr(reply);
      ids := listed;
      found := NodesOf(listed);
      edges := [];
      var seen := {};
      for i := 0 to |listed|
        invariant Collected(State(), listed, edges, seen)
        invariant forall k :: 0 <= k < i ==> Exhausted(State(), listed, edges, listed[k])
      {
        var some := GetEdges(listed[i], None);
        for k := 0 to |some|
          invariant Collected(State(), listed, edges, seen)
          invariant forall k :: 0 <= k < i ==> Exhausted(State(), listed, edges, listed[k])
          invariant forall j :: 0 <= j < k && some[j].edge.target in listed ==> Covered(edges, some[j].edge)
        {
          var r := some[k];
          assert r in some;
          ghost var before := edges;
          if r.edge !in seen && r.edge.Reverse() !in seen {
            if r.edge.source in listed && r.edge.target in listed {
              CollectOne(State(), listed, edges, seen, r);
              edges := edges + [r];
              seen := seen + {r.edge};
            }
          } else {
            SeenIsCovered(State(), listed, edges, seen, r.edge);
          }
          CoverageGrows(State(), listed, before, edges, listed[..i]);
        }
        forall r | ReportsUntyped(State(), listed[i], r) && r.edge.target in listed ensures Covered(edges, r.edge) {
          assert r in some;
        }
      }
      CollectedIsExact(State(), listed, edges, seen);
    }

    /** The node list: the hash of every listed id that has one. */
    method NodesOf(ids: seq<Id>) returns (found: seq<NodeRecord>)
      ensures forall r :: r in found <==> r.id in ids && r.id in nodes && nodes[r.id] != map[] && r.props == nodes[r.id]
    {
      found := [];
      for i := 0 to |ids|
        invariant forall r :: r in found <==> r.id in ids[..i] && r.id in nodes && nodes[r.id] != map[] && r.props == nodes[r.id]
      {
        assert ids[..i + 1] == ids[..i] + [ids[i]];
        if ids[i] in nodes && nodes[ids[i]] != map[] {
          found := found + [NodeRecord(ids[i], nodes[ids[i]])];
        }
      }
      assert ids[..|ids|] == ids;
    }
  }

  lemma NoTypesNoEdges(g: Graph, a: Id, b: Id)
    ensures TypesBetween(g, a, b) == {} <==> forall t :: Edge(a, b, t) !in g.properties
  {
    if TypesBetween(g, a, b) != {} {
      var t :| t in TypesBetween(g, a, b);
      assert Edge(a, b, t) in g.properties;
    }
    forall t | Edge(a, b, t) in g.properties ensures t in TypesBetween(g, a, b) {
    }
  }

  lemma DistinctJoin(first: seq<EdgeRecord>, second: seq<EdgeRecord>)
    requires DistinctEdges(first) && DistinctEdges(second)
    requires forall r, q :: r in first && q in second ==> r.edge != q.edge
    ensures DistinctEdges(first + second)
  {
  }

  lemma ReportedAreNeighbors(g: Graph, n: Id, etype: Option<EdgeType>, r: EdgeRecord)
    requires Consistent(g) && Reports(g, n, etype, r)
    ensures r.edge.target in if etype.Some? then NeighborsBy(g, n, etype.value) else Neighbors(g, n)
  {
    assert r.edge.Reverse().Reverse() == r.edge;
    assert r.edge in g.adjacent;
  }

  /** The edge is among the records, in one direction or the other. */
  predicate Covered(records: seq<EdgeRecord>, e: Edge)
  {
    exists i :: 0 <= i < |records| && (records[i].edge == e || records[i].edge == e.Reverse())
  }

  /** What the collecting loops keep: the records are reports between listed nodes, no two
      of one link, and `seen` holds their edges. */
  predicate Collected(g: Graph, ids: seq<Id>, records: seq<EdgeRecord>, seen: set<Edge>)
  {
    && (forall i :: 0 <= i < |records| ==>
          records[i].edge.source in ids && records[i].edge.target in ids && records[i].edge in seen
          && ReportsUntyped(g, records[i].edge.source, records[i]))
    && (forall e :: e in seen ==> exists i :: 0 <= i < |records| && records[i].edge == e)
    && (forall i, j :: 0 <= i < j < |records| ==> LinkOf(records[i].edge) != LinkOf(records[j].edge))
  }

  /** Everything the node reports towards listed nodes is covered. */
  ghost predicate Exhausted(g: Graph, ids: seq<Id>, records: seq<EdgeRecord>, n: Id)
  {
    forall r :: ReportsUntyped(g, n, r) && r.edge.target in ids ==> Covered(records, r.edge)
  }

  lemma CollectOne(g: Graph, ids: seq<Id>, records: seq<EdgeRecord>, seen: set<Edge>, r: EdgeRecord)
    requires Collected(g, ids, records, seen)
    requires r.edge !in seen && r.edge.Reverse() !in seen
    requires r.edge.source in ids && r.edge.target in ids && ReportsUntyped(g, r.edge.source, r)
    ensures Collected(g, ids, records + [r], seen + {r.edge})
    ensures Covered(records + [r], r.edge)
  {
    var more := records + [r];
    assert more[|records|] == r;
    forall i | 0 <= i < |records| ensures LinkOf(records[i].edge) != LinkOf(r.edge) {
      SameLink(r.edge, records[i].edge);
    }
    forall e | e in seen + {r.edge} ensures exists i :: 0 <= i < |more| && more[i].edge == e {
      if e in seen {
        var i :| 0 <= i < |records| && records[i].edge == e;
        assert more[i].edge == e;
      }
    }
  }

  lemma SeenIsCovered(g: Graph, ids: seq<Id>, records: seq<EdgeRecord>, seen: set<Edge>, e: Edge)
    requires Collected(g, ids, records, seen) && (e in seen || e.Reverse() in seen)
    ensures Covered(records, e)
  {
    var f := if e in seen then e else e.Reverse();
    var i :| 0 <= i < |records| && records[i].edge == f;
  }

  lemma CoverageGrows(g: Graph, ids: seq<Id>, before: seq<EdgeRecord>, after: seq<EdgeRecord>, done: seq<Id>)
    requires before <= after
    requires forall k :: 0 <= k < |done| ==> Exhausted(g, ids, before, done[k])
    ensures forall e :: Covered(before, e) ==> Covered(after, e)
    ensures forall k :: 0 <= k < |done| ==> Exhausted(g, ids, after, done[k])
  {
    forall e | Covered(before, e) ensures Covered(after, e) {
      var i :| 0 <= i < |before| && (before[i].edge == e || before[i].edge == e.Reverse());
      assert after[i] == before[i];
    }
  }

  /** An edge is covered exactly when it joins two listed nodes and has properties in some
      direction: the end that its properties start at has reported it. */
  lemma CollectedIsExact(g: Graph, ids: seq<Id>, records: seq<EdgeRecord>, seen: set<Edge>)
    requires Consistent(g) && Collected(g, ids, records, seen)
    requires forall k :: 0 <= k < |ids| ==> Exhausted(g, ids, records, ids[k])
    ensures forall e :: Covered(records, e) <==> e.source in ids && e.target in ids && HasProperties(g, e)
  {
    forall e ensures Covered(records, e) <==> e.source in ids && e.target in ids && HasProperties(g, e) {
      assert e.Reverse().Reverse() == e;
      if e.source in ids && e.target in ids && HasProperties(g, e) {
        var f := if e in g.properties then e else e.Reverse();
        NeverMissedAtItsOwnEnd(g, f);
        var k :| 0 <= k < |ids| && ids[k] == f.source;
        assert Exhausted(g, ids, records, ids[k]);
        var i :| 0 <= i < |records| && (records[i].edge == f || records[i].edge == f.Reverse());
      }
    }
  }

  /** The edge starts at the node, or comes to it from one of the neighbours. */
  predicate Near(e: Edge, n: Id, neighbors: set<Id>)
  {
    e.source == n || (e.target == n && e.source in neighbors)
  }

  lemma TouchingIsCovered(g: Graph, n: Id)
    requires Consistent(g)
    ensures forall e :: e in g.adjacent && Touches(e, n) ==> e.etype in TypesAt(g, n) && Near(e, n, Neighbors(g, n))
  {
    forall e | e in g.adjacent && Touches(e, n) ensures e.etype in TypesAt(g, n) && Near(e, n, Neighbors(g, n)) {
      var f := if e.source == n then e else e.Reverse();
      assert f in g.adjacent && f.source == n;
      assert f.etype in TypesAt(g, n) && f.target in Neighbors(g, n);
    }
  }
}
