/**
  `pyoxigraph.Store`, the engine OxigraphStore delegates to, as a dataset held in
  place: a set of quads and the set of named graphs the store knows of.
 */
module Backend {
  import opened Wrappers
  import opened Oxigraph

  /** The named graph a quad registers when it is inserted: none for the default graph. */
  function GraphOf(q: Quad): (gs: set<Term>)
    ensures gs == {} <==> q.graphName.DefaultGraph?
    ensures forall g :: g in gs ==> g == q.graphName
  {
    if q.graphName.DefaultGraph? then {} else {q.graphName}
  }

  class Store {
    var quads: set<Quad>
    var namedGraphs: set<Term>

    function Snapshot(): Dataset
      reads this
    {
      Dataset(quads, namedGraphs)
    }

    ghost predicate Valid()
      reads this
    {
      ValidDataset(Snapshot())
    }

    /** `ox.Store()` on the given content: empty in memory, or what a directory holds. */
    constructor(content: Content)
      ensures Snapshot() == content
      ensures Valid()
    {
      quads := content.quads;
      namedGraphs := content.namedGraphs;
    }

    /** `store.add(quad)`: inserting a quad into a named graph also registers that graph. */
    method Add(q: Quad)
      requires WellKinded(q)
      modifies this
      ensures quads == old(quads) + {q}
      ensures namedGraphs == old(namedGraphs) + GraphOf(q)
      ensures old(Valid()) ==> Valid()
    {
      quads := quads + {q};
      namedGraphs := namedGraphs + GraphOf(q);
    }

    /** `store.extend(quads)` */
    method Extend(qs: seq<Quad>)
      requires forall i :: 0 <= i < |qs| ==> WellKinded(qs[i])
      modifies this
      ensures quads == old(quads) + (set i | 0 <= i < |qs| :: qs[i])
      ensures namedGraphs == old(namedGraphs) + (set i | 0 <= i < |qs| && !qs[i].graphName.DefaultGraph? :: qs[i].graphName)
      ensures old(Valid()) ==> Valid()
    {
      quads := quads + (set i | 0 <= i < |qs| :: qs[i]);
      namedGraphs := namedGraphs + (set i | 0 <= i < |qs| && !qs[i].graphName.DefaultGraph? :: qs[i].graphName);
    }

    /** `store.remove(quad)`: the graph stays registered even when it becomes empty. */
    method Remove(q: Quad)
      modifies this
      ensures quads == old(quads) - {q}
      ensures namedGraphs == old(namedGraphs)
      ensures old(Valid()) ==> Valid()
    {
      quads := quads - {q};
    }

    /** `store.quads_for_pattern(s, p, o, g)` */
    function QuadsForPattern(pat: QuadPattern): (r: Result<set<Quad>>)
      reads this
      ensures r.Ok? ==> forall q :: q in r.value <==> q in quads && Matches(q, pat)
      ensures r.Err? <==> !PatternKinds(pat)
    {
      Select(quads, pat)
    }

    /**
      `store.add_graph(graph)`: registers a named graph; the default graph always
      exists, so adding it does nothing; any other term is a TypeError.
     */
    method AddGraph(graph: Term) returns (out: Outcome)
      modifies this
      ensures out.Fail? <==> !GraphNameKind(graph)
      ensures out.Fail? ==> out.error == TypeError
      ensures quads == old(quads)
      ensures namedGraphs == old(namedGraphs) + (if graph.NamedNode? || graph.BlankNode? then {graph} else {})
      ensures old(Valid()) ==> Valid()
    {
      if !GraphNameKind(graph) {
        return Fail(TypeError);
      }
      if !graph.DefaultGraph? {
        namedGraphs := namedGraphs + {graph};
      }
      return Pass;
    }

    /**
      `store.remove_graph(graph)`: a named graph loses its quads and its registration;
      the default graph loses its quads and stays.
     */
    method RemoveGraph(graph: Term) returns (out: Outcome)
      modifies this
      ensures out.Fail? <==> !GraphNameKind(graph)
      ensures out.Fail? ==> out.error == TypeError
      ensures out.Pass? ==> quads == set q | q in old(quads) && q.graphName != graph
      ensures out.Pass? ==> namedGraphs == old(namedGraphs) - {graph}
      ensures out.Fail? ==> quads == old(quads) && namedGraphs == old(namedGraphs)
      ensures old(Valid()) ==> Valid()
    {
      if !GraphNameKind(graph) {
        return Fail(TypeError);
      }
      quads := set q | q in quads && q.graphName != graph;
      namedGraphs := namedGraphs - {graph};
      return Pass;
    }

    /** `store.query(text, use_default_graph_as_union=..., default_graph=...)`, evaluated by `engine` on the current content. */
    function Query(engine: QueryEngine, text: string, union: bool, defaultGraph: Option<Term>): Result<QueryResults>
      reads this
    {
      engine(Snapshot(), text, union, defaultGraph)
    }

    /** `store.update(text)`: the content becomes what `engine` computes, or stays when it fails. */
    method Update(engine: UpdateEngine, text: string) returns (out: Outcome)
      modifies this
      ensures var r := engine(old(Snapshot()), text);
              && (r.Ok? ==> out == Pass && Snapshot() == r.value)
              && (r.Err? ==> out == Fail(r.error) && Snapshot() == old(Snapshot()))
      ensures old(Valid()) ==> Valid()
    {
      var r := engine(Snapshot(), text);
      if r.Err? {
        return Fail(r.error);
      }
      quads := r.value.quads;
      namedGraphs := r.value.namedGraphs;
      return Pass;
    }
  }
}
