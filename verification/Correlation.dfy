/** The correlation routes over the graph store (src/orchestrator/routes/correlation_api.py):
    creating, deleting, and the graph response with its degree counts. */
module Correlation {
  import opened Wrappers
  import opened GraphStore

  datatype HttpError = BadRequest | NotFound

  datatype Correlated = Correlated(id: string, edge: Edge, notes: Option<string>, createdAt: string)

  datatype GraphNode = GraphNode(id: Id, degree: nat)

  predicate IsLoop(e: Edge)
  {
    e.source == e.target
  }

  /** What the routes keep: no idea is correlated with itself, and every link carries
      properties, so that the graph response shows it. */
  ghost predicate Presentable(g: Graph)
  {
    && Consistent(g)
    && (forall e :: e in g.adjacent ==> !IsLoop(e) && HasProperties(g, e))
  }

  // ---- degrees ----

  function Degree(edges: seq<EdgeRecord>, n: Id): nat
  {
    if edges == [] then 0
    else Degree(edges[..|edges| - 1], n) + if Touches(edges[|edges| - 1].edge, n) then 1 else 0
  }

  function TotalDegree(edges: seq<EdgeRecord>, ids: seq<Id>): nat
  {
    if ids == [] then 0 else TotalDegree(edges, ids[..|ids| - 1]) + Degree(edges, ids[|ids| - 1])
  }

  function Loops(edges: seq<EdgeRecord>): nat
  {
    if edges == [] then 0
    else Loops(edges[..|edges| - 1]) + if IsLoop(edges[|edges| - 1].edge) then 1 else 0
  }

  function Touching(ids: seq<Id>, e: Edge): nat
  {
    if ids == [] then 0 else Touching(ids[..|ids| - 1], e) + if Touches(e, ids[|ids| - 1]) then 1 else 0
  }

  lemma {:induction false} OneMoreEdge(edges: seq<EdgeRecord>, ids: seq<Id>)
    requires edges != []
    ensures TotalDegree(edges, ids)
         == TotalDegree(edges[..|edges| - 1], ids) + Touching(ids, edges[|edges| - 1].edge)
  {
    if ids != [] {
      OneMoreEdge(edges, ids[..|ids| - 1]);
    }
  }

  /** Among distinct ids that contain both ends, an edge touches two, a loop one. */
  lemma {:induction false} EndsAmong(ids: seq<Id>, e: Edge)
    requires NoRepeats(ids)
    ensures Touching(ids, e)
         == (if e.source in ids then 1 else 0) + (if e.target in ids && !IsLoop(e) then 1 else 0)
  {
    if ids != [] {
      EndsAmong(ids[..|ids| - 1], e);
      assert ids == ids[..|ids| - 1] + [ids[|ids| - 1]];
    }
  }

  lemma {:induction false} Handshake(edges: seq<EdgeRecord>, ids: seq<Id>)
    requires NoRepeats(ids)
    requires forall i :: 0 <= i < |edges| ==> edges[i].edge.source in ids && edges[i].edge.target in ids
    ensures TotalDegree(edges, ids) + Loops(edges) == 2 * |edges|
  {
    if edges == [] {
      NoEdges(ids);
    } else {
      OneMoreEdge(edges, ids);
      EndsAmong(ids, edges[|edges| - 1].edge);
      Handshake(edges[..|edges| - 1], ids);
    }
  }

  lemma {:induction false} NoEdges(ids: seq<Id>)
    ensures TotalDegree([], ids) == 0
  {
    if ids != [] {
      NoEdges(ids[..|ids| - 1]);
    }
  }

  lemma {:induction false} LoopsCounted(edges: seq<EdgeRecord>)
    ensures Loops(edges) == 0 <==> forall i :: 0 <= i < |edges| ==> !IsLoop(edges[i].edge)
  {
    if edges != [] {
      var front := edges[..|edges| - 1];
      LoopsCounted(front);
      assert forall i :: 0 <= i < |front| ==> front[i] == edges[i];
      assert IsLoop(edges[|front|].edge) || Loops(edges) == Loops(front);
    }
  }

  /** With distinct ids, the degrees add up to twice the number of edges exactly when no
      edge is a loop: the check at creation is what the response rests on. */
  lemma HandshakeExactly(edges: seq<EdgeRecord>, ids: seq<Id>)
    requires NoRepeats(ids)
    requires forall i :: 0 <= i < |edges| ==> edges[i].edge.source in ids && edges[i].edge.target in ids
    ensures TotalDegree(edges, ids) == 2 * |edges| <==> forall i :: 0 <= i < |edges| ==> !IsLoop(edges[i].edge)
  {
    Handshake(edges, ids);
    LoopsCounted(edges);
  }

  // ---- degrees as numbers of links ----

  function LinksAt(edges: seq<EdgeRecord>, n: Id): set<Link>
  {
    set i | 0 <= i < |edges| && Touches(edges[i].edge, n) :: LinkOf(edges[i].edge)
  }

  /** Without two records of one link, the degree counts links. */
  lemma {:induction false} DegreeCountsLinks(edges: seq<EdgeRecord>, n: Id)
    requires forall i, j :: 0 <= i < j < |edges| ==> LinkOf(edges[i].edge) != LinkOf(edges[j].edge)
    ensures Degree(edges, n) == |LinksAt(edges, n)|
  {
    if edges != [] {
      var front, last := edges[..|edges| - 1], edges[|edges| - 1].edge;
      DegreeCountsLinks(front, n);
      forall l ensures l in LinksAt(edges, n) <==> l in LinksAt(front, n) || (Touches(last, n) && l == LinkOf(last)) {
        if l in LinksAt(front, n) {
          var i :| 0 <= i < |front| && Touches(front[i].edge, n) && LinkOf(front[i].edge) == l;
          assert edges[i] == front[i];
        }
        if l in LinksAt(edges, n) {
          var i :| 0 <= i < |edges| && Touches(edges[i].edge, n) && LinkOf(edges[i].edge) == l;
          assert i < |front| ==> front[i] == edges[i];
        }
      }
      assert LinkOf(last) !in LinksAt(front, n);
      assert LinksAt(edges, n) == LinksAt(front, n) + if Touches(last, n) then {LinkOf(last)} else {};
    }
  }

  /** The links of the graph that join n to a listed idea. */
  function ListedLinks(g: Graph, ids: seq<Id>, n: Id): set<Link>
  {
    set e | e in g.adjacent && e.source == n && e.target in ids :: LinkOf(e)
  }

  lemma ResponseShowsLinks(g: Graph, ids: seq<Id>, edges: seq<EdgeRecord>, n: Id)
    requires Presentable(g) && n in ids
    requires forall e :: Covered(edges, e) <==> e.source in ids && e.target in ids && HasProperties(g, e)
    ensures LinksAt(edges, n) == ListedLinks(g, ids, n)
  {
    forall l ensures l in LinksAt(edges, n) <==> l in ListedLinks(g, ids, n) {
      if l in LinksAt(edges, n) {
        var i :| 0 <= i < |edges| && Touches(edges[i].edge, n) && LinkOf(edges[i].edge) == l;
        var e := edges[i].edge;
        assert Covered(edges, e);
        var f := if e.source == n then e else e.Reverse();
        SameLink(e, f);
        assert e.Reverse().Reverse() == e;
        assert f in g.adjacent && f.source == n && LinkOf(f) == l && f.target in ids;
      }
      if l in ListedLinks(g, ids, n) {
        var e :| e in g.adjacent && e.source == n && e.target in ids && LinkOf(e) == l;
        assert Covered(edges, e);
        var i :| 0 <= i < |edges| && (edges[i].edge == e || edges[i].edge == e.Reverse());
        SameLink(e, edges[i].edge);
        assert Touches(edges[i].edge, n);
      }
    }
  }

  lemma AddedPresentable(g: Graph, e: Edge, props: Props)
    requires Presentable(g) && !IsLoop(e) && props != map[]
    ensures Presentable(EdgeAdded(g, e, props))
  {
    AddRefines(g, e, props);
    assert e.Reverse().Reverse() == e;
  }

  lemma RemovedPresentable(g: Graph, e: Edge)
    requires Presentable(g)
    ensures Presentable(EdgeRemoved(g, e))
  {
    RemoveRefines(g, e);
    assert e.Reverse().Reverse() == e;
  }

  // ---- the routes ----

  class CorrelationApi {
    const store: RedisGraphStore

    constructor (graphStore: RedisGraphStore)
      ensures store == graphStore
    {
      store := graphStore;
    }

    /** A correlation of an idea with itself is refused before the store is touched. */
    method CreateCorrelation(edge: Edge, id: string, notes: Option<string>, now: string)
      returns (r: Result<Correlated, HttpError>)
      requires store.Valid()
      modifies store
      ensures store.Valid()
      ensures edge.source == edge.target ==> r == Err(BadRequest) && store.State() == old(store.State())
      ensures edge.source != edge.target ==>
        && r == Ok(Correlated(id, edge, notes, now))
        && Links(store.State()) == old(Links(store.State())) + {LinkOf(edge)}
        && edge in store.properties
        && store.properties[edge] == (if edge in old(store.properties) then old(store.properties)[edge] else map[])
             + map["id" := id, "notes" := notes.GetOr(""), "created_by" := "anonymous", "created_at" := now]
        && store.properties - {edge} == old(store.properties) - {edge}
        && store.nodes == old(store.nodes) && store.allNodes == old(store.allNodes)
      ensures old(Presentable(store.State())) ==> Presentable(store.State())
    {
      if edge.source == edge.target {
        return Err(BadRequest);
      }
      var props := map["id" := id, "notes" := notes.GetOr(""), "created_by" := "anonymous", "created_at" := now];
      assert "id" in props;
      if Presentable(store.State()) {
        AddedPresentable(store.State(), edge, props);
      }
      store.AddEdge(edge.source, edge.target, edge.etype, props);
      return Ok(Correlated(id, edge, notes, now));
    }

    /** Found by its ends and type, in either order; the id is not looked at. */
    method DeleteCorrelation(edge: Edge) returns (r: Result<bool, HttpError>)
      requires store.Valid()
      modifies store
      ensures store.Valid()
      ensures r == if LinkOf(edge) in old(Links(store.State())) then Ok(true) else Err(NotFound)
      ensures Links(store.State()) == old(Links(store.State())) - {LinkOf(edge)}
      ensures old(Presentable(store.State())) ==> Presentable(store.State())
    {
      LinkMember(store.State(), edge);
      if Presentable(store.State()) {
        RemovedPresentable(store.State(), edge);
      }
      var removed := store.RemoveEdge(edge.source, edge.target, edge.etype);
      return if removed then Ok(true) else Err(NotFound);
    }

    /** The graph response: one node per idea with its degree, and the edges between the
        ideas; a store that raises leaves the edges out. */
    method GetGraph(ideas: seq<Id>, storeRaises: bool, reply: seq<Id>)
      returns (nodes: seq<GraphNode>, edges: seq<EdgeRecord>)
      requires store.Valid() && forall n :: n in reply <==> n in store.allNodes
      ensures |nodes| == |ideas|
      ensures forall i :: 0 <= i < |ideas| ==> nodes[i].id == ideas[i]
      ensures storeRaises ==> edges == []
      ensures !storeRaises ==> (forall e :: Covered(edges, e) <==> e.source in ideas && e.target in ideas && HasProperties(store.State(), e))
      ensures forall r :: r in edges ==> ReportsUntyped(store.State(), r.edge.source, r)
      ensures forall i, j :: 0 <= i < j < |edges| ==> LinkOf(edges[i].edge) != LinkOf(edges[j].edge)
      ensures forall i :: 0 <= i < |ideas| ==> nodes[i].degree == Degree(edges, ideas[i])
      ensures Presentable(store.State()) && !storeRaises ==>
        forall i :: 0 <= i < |ideas| ==> nodes[i].degree == |ListedLinks(store.State(), ideas, ideas[i])|
      ensures Presentable(store.State()) && NoRepeats(ideas) ==> SumOfDegrees(nodes) == 2 * |edges|
    {
      edges := [];
      if !storeRaises {
        var found;
        ghost var ids;
        found, edges, ids := store.GetGraph(Some(ideas), reply);
      }
      nodes := [];
      for i := 0 to |ideas|
        invariant |nodes| == i
        invariant forall k :: 0 <= k < i ==> nodes[k] == GraphNode(ideas[k], Degree(edges, ideas[k]))
      {
        var degree := CountDegree(edges, ideas[i]);
        nodes := nodes + [GraphNode(ideas[i], degree)];
      }
      if Presentable(store.State()) {
        ResponseIsRight(store.State(), ideas, storeRaises, edges, nodes);
      }
    }

    method CountDegree(edges: seq<EdgeRecord>, n: Id) returns (degree: nat)
      ensures degree == Degree(edges, n)
    {
      degree := 0;
      for k := 0 to |edges|
        invariant degree == Degree(edges[..k], n)
      {
        assert edges[..k + 1][..k] == edges[..k];
        if Touches(edges[k].edge, n) {
          degree := degree + 1;
        }
      }
      assert edges[..|edges|] == edges;
    }
  }

  function SumOfDegrees(nodes: seq<GraphNode>): nat
  {
    if nodes == [] then 0 else SumOfDegrees(nodes[..|nodes| - 1]) + nodes[|nodes| - 1].degree
  }

  lemma {:induction false} SumIsTotal(nodes: seq<GraphNode>, edges: seq<EdgeRecord>, ids: seq<Id>)
    requires |nodes| == |ids|
    requires forall k :: 0 <= k < |ids| ==> nodes[k].degree == Degree(edges, ids[k])
    ensures SumOfDegrees(nodes) == TotalDegree(edges, ids)
  {
    if nodes != [] {
      SumIsTotal(nodes[..|nodes| - 1], edges, ids[..|ids| - 1]);
    }
  }

  lemma ResponseIsRight(g: Graph, ids: seq<Id>, storeRaises: bool, edges: seq<EdgeRecord>, nodes: seq<GraphNode>)
    requires Presentable(g)
    requires if storeRaises then edges == [] else
      forall e :: Covered(edges, e) <==> e.source in ids && e.target in ids && HasProperties(g, e)
    requires forall i, j :: 0 <= i < j < |edges| ==> LinkOf(edges[i].edge) != LinkOf(edges[j].edge)
    requires |nodes| == |ids|
    requires forall k :: 0 <= k < |ids| ==> nodes[k].degree == Degree(edges, ids[k])
    ensures !storeRaises ==> forall i :: 0 <= i < |ids| ==> nodes[i].degree == |ListedLinks(g, ids, ids[i])|
    ensures NoRepeats(ids) ==> SumOfDegrees(nodes) == 2 * |edges|
  {
    if !storeRaises {
      forall i | 0 <= i < |ids| ensures nodes[i].degree == |ListedLinks(g, ids, ids[i])| {
        DegreeCountsLinks(edges, ids[i]);
        ResponseShowsLinks(g, ids, edges, ids[i]);
      }
    }
    if NoRepeats(ids) {
      forall i | 0 <= i < |edges|
        ensures edges[i].edge.source in ids && edges[i].edge.target in ids && !IsLoop(edges[i].edge) {
        assert Covered(edges, edges[i].edge);
        var e := edges[i].edge;
        assert e in g.adjacent || e.Reverse() in g.adjacent;
      }
      SumIsTotal(nodes, edges, ids);
      HandshakeExactly(edges, ids);
    }
  }
}
