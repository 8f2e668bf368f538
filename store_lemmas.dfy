/**
  What the OxigraphStore operations promise about the backend's content: added
  triples are found again, `remove` removes exactly the matching quads, `len` counts
  distinct triples across graphs, and `contexts` lists the named graphs.
 */
module StoreLemmas {
  import opened Wrappers
  import R = Rdflib
  import Ox = Oxigraph
  import C = Converter
  import S = Store
  import B = Backend

  /** A triple whose nodes round-trip and fit the subject, predicate and object positions. */
  predicate Storable(t: R.Triple) {
    && C.RoundTrips(t.0) && C.RoundTrips(t.1) && C.RoundTrips(t.2)
    && (t.0.URIRef? || t.0.BNode?) && t.1.URIRef?
  }

  /** A graph handle whose identifier is an IRI (possibly the default-graph identifier) or a blank node. */
  predicate NamesGraph(g: R.Graph) {
    g.identifier.URIRef? || g.identifier.BNode?
  }

  predicate AllWellKinded(quads: set<Ox.Quad>) {
    forall q :: q in quads ==> Ox.WellKinded(q)
  }

  /**
    The pattern of a storable triple names exactly the quad `add` builds for it; with
    no context the graph position is a wildcard.
   */
  lemma {:induction false} PatternOfTriple(t: R.Triple, context: Option<R.Graph>)
    requires Storable(t) && (context.Some? ==> NamesGraph(context.value))
    ensures S.QuadFor(t, context).Ok?
    ensures var q := S.QuadFor(t, context).value;
            C.ToOxQuadPattern(R.TripleAsPattern(t), context)
            == Ok(Ox.QuadPattern(Some(q.subject), Some(q.pred), Some(q.obj), if context.None? then None else Some(q.graphName)))
  {
    C.TripleToQuad(t, context);
    C.NodeRoundTrip(t.0, None);
    C.NodeRoundTrip(t.1, None);
    C.NodeRoundTrip(t.2, None);
  }

  /** `add` then `triples`: the triple is found in its graph, in the union, and by the all-wildcard pattern. */
  lemma {:induction false} AddedTripleIsFound(quads: set<Ox.Quad>, t: R.Triple, g: R.Graph)
    requires AllWellKinded(quads) && Storable(t) && NamesGraph(g)
    requires S.QuadFor(t, Some(g)).Ok? && S.QuadFor(t, Some(g)).value in quads
    ensures var m := S.Match(R.NodeValue(t.0), R.NodeValue(t.1), R.NodeValue(t.2), g);
            && m in S.TriplesOf(quads, R.TripleAsPattern(t), Some(g))
            && m in S.TriplesOf(quads, R.TripleAsPattern(t), None)
            && m in S.TriplesOf(quads, (None, None, None), None)
  {
    var q := S.QuadFor(t, Some(g)).value;
    C.AddedTripleReadsBack(t, Some(g));
    assert S.MatchOf(q) == S.Match(R.NodeValue(t.0), R.NodeValue(t.1), R.NodeValue(t.2), g);
    PatternOfTriple(t, Some(g));
    PatternOfTriple(t, None);
    C.TripleToQuad(t, Some(g));
    C.TripleToQuad(t, None);
    C.WildcardPattern();
  }

  /** A pattern the backend refuses (a literal subject, say) makes `triples` yield nothing. */
  lemma LiteralSubjectYieldsNothing(quads: set<Ox.Quad>, lexical: string, context: Option<R.Graph>)
    requires AllWellKinded(quads)
    ensures S.TriplesOf(quads, (Some(R.NodeValue(R.Literal(lexical, R.Plain))), None, None), context) == {}
  {
  }

  /**
    `triples(pattern, context)` yields exactly the items of the quads
    `remove(pattern, context)` takes away, and nothing when `remove` raises.
   */
  lemma TriplesAreWhatRemoveRemoves(quads: set<Ox.Quad>, pattern: R.TriplePattern, context: Option<R.Graph>)
    requires AllWellKinded(quads)
    ensures S.RemovedFrom(quads, pattern, context).Err? ==> S.TriplesOf(quads, pattern, context) == {}
    ensures S.RemovedFrom(quads, pattern, context).Ok? ==>
              S.TriplesOf(quads, pattern, context) == set q | q in quads - S.RemovedFrom(quads, pattern, context).value :: S.MatchOf(q)
  {
  }

  /** After `remove(pattern, context)`, `triples(pattern, context)` yields nothing. */
  lemma {:induction false} NoTriplesAfterRemove(quads: set<Ox.Quad>, pattern: R.TriplePattern, context: Option<R.Graph>)
    requires AllWellKinded(quads) && S.RemovedFrom(quads, pattern, context).Ok?
    ensures AllWellKinded(S.RemovedFrom(quads, pattern, context).value)
    ensures S.TriplesOf(S.RemovedFrom(quads, pattern, context).value, pattern, context) == {}
  {
    var rest := S.RemovedFrom(quads, pattern, context).value;
    assert AllWellKinded(rest);
  }

  /** What `triples` yields in one graph it also yields over the union of all graphs. */
  lemma {:induction false} GraphTriplesInUnion(quads: set<Ox.Quad>, pattern: R.TriplePattern, g: R.Graph)
    requires AllWellKinded(quads)
    ensures S.TriplesOf(quads, pattern, Some(g)) <= S.TriplesOf(quads, pattern, None)
  {
    var one, all := C.ToOxQuadPattern(pattern, Some(g)), C.ToOxQuadPattern(pattern, None);
    if one.Ok? && Ox.PatternKinds(one.value) {
      assert all.Ok? && all.value == one.value.(graphName := None);
      forall m | m in S.TriplesOf(quads, pattern, Some(g)) ensures m in S.TriplesOf(quads, pattern, None) {
        var q :| q in quads && S.MatchOf(q) == m && Ox.Matches(q, one.value);
        assert Ox.Matches(q, all.value);
      }
    }
  }

  /** `remove((None, None, None))` empties the store. */
  lemma RemoveAnyEmpties(quads: set<Ox.Quad>)
    ensures S.RemovedFrom(quads, (None, None, None), None) == Ok({})
  {
    C.WildcardPattern();
    var selected := Ox.Select(quads, Ox.Wildcard);
    assert selected.Ok?;
    assert forall q :: q in quads ==> Ox.Matches(q, Ox.Wildcard);
    assert selected.value == quads;
    assert quads - selected.value == {};
  }

  /**
    `remove(triple)` without a context removes the triple from every graph and keeps
    every quad stating another triple.
   */
  lemma {:induction false} RemoveTripleEverywhere(quads: set<Ox.Quad>, t: R.Triple)
    requires Storable(t)
    ensures S.QuadFor(t, None).Ok?
    ensures var r := S.RemovedFrom(quads, R.TripleAsPattern(t), None);
            && r.Ok?
            && (forall q :: q in r.value ==> Ox.TripleOf(q) != Ox.TripleOf(S.QuadFor(t, None).value))
            && (forall q :: q in quads && Ox.TripleOf(q) != Ox.TripleOf(S.QuadFor(t, None).value) ==> q in r.value)
  {
    PatternOfTriple(t, None);
  }

  /** `remove(triple, context)` removes the quad of that graph only; the quads of every other graph stay. */
  lemma {:induction false} RemoveInOneGraph(quads: set<Ox.Quad>, t: R.Triple, g: R.Graph)
    requires Storable(t) && NamesGraph(g)
    ensures S.QuadFor(t, Some(g)).Ok?
    ensures var r := S.RemovedFrom(quads, R.TripleAsPattern(t), Some(g));
            && r.Ok?
            && S.QuadFor(t, Some(g)).value !in r.value
            && (forall q :: q in quads && q.graphName != S.QuadFor(t, Some(g)).value.graphName ==> q in r.value)
  {
    PatternOfTriple(t, Some(g));
  }

  /** No more distinct triples than quads. */
  lemma {:induction false} TriplesAtMostQuads(quads: set<Ox.Quad>, graph: Option<Ox.Term>)
    ensures |Ox.TriplesIn(quads, graph)| <= |quads|
    decreases |quads|
  {
    if quads != {} {
      var q :| q in quads;
      var rest := quads - {q};
      TriplesAtMostQuads(rest, graph);
      assert |rest| == |quads| - 1;
      assert Ox.TriplesIn(quads, graph) <= Ox.TriplesIn(rest, graph) + {Ox.TripleOf(q)};
      SubsetCard(Ox.TriplesIn(quads, graph), Ox.TriplesIn(rest, graph) + {Ox.TripleOf(q)});
      assert |Ox.TriplesIn(rest, graph) + {Ox.TripleOf(q)}| <= |Ox.TriplesIn(rest, graph)| + 1;
    } else {
      assert Ox.TriplesIn(quads, graph) == {};
    }
  }

  /** `len` never exceeds the number of stored quads, in the union or in one graph. */
  lemma LenAtMostQuads(quads: set<Ox.Quad>, context: Option<R.Graph>)
    requires S.LenOf(quads, context).Ok?
    ensures S.LenOf(quads, context).value <= |quads|
  {
    if context.None? {
      TriplesAtMostQuads(quads, None);
    } else {
      TriplesAtMostQuads(quads, Some(C.NodeToOx(context.value.identifier).value));
    }
  }

  /** The count of one graph never exceeds the count over the union. */
  lemma GraphLenAtMostUnion(quads: set<Ox.Quad>, g: R.Graph)
    requires S.LenOf(quads, Some(g)).Ok?
    ensures S.LenOf(quads, Some(g)).value <= S.LenOf(quads, None).value
  {
    var c := C.NodeToOx(g.identifier).value;
    assert Ox.TriplesIn(quads, Some(c)) <= Ox.TriplesIn(quads, None);
    SubsetCard(Ox.TriplesIn(quads, Some(c)), Ox.TriplesIn(quads, None));
  }

  lemma {:induction false} SubsetCard<X>(a: set<X>, b: set<X>)
    requires a <= b
    ensures |a| <= |b|
  {
    assert b == a + (b - a);
  }

  /** Adding a triple that some graph already holds, in any other graph, leaves the union count as it was. */
  lemma SameTripleCountsOnce(quads: set<Ox.Quad>, q: Ox.Quad, q': Ox.Quad)
    requires q in quads && Ox.TripleOf(q') == Ox.TripleOf(q)
    ensures S.LenOf(quads + {q'}, None) == S.LenOf(quads, None)
  {
    assert Ox.TriplesIn(quads + {q'}, None) == Ox.TriplesIn(quads, None);
  }

  /** The same triple in three graphs counts once in the union, and once in each graph. */
  lemma {:induction false} OneTripleThreeGraphs(t: R.Triple, g1: R.Graph, g2: R.Graph, g3: R.Graph)
    requires Storable(t) && NamesGraph(g1) && NamesGraph(g2) && NamesGraph(g3)
    ensures S.QuadFor(t, Some(g1)).Ok? && S.QuadFor(t, Some(g2)).Ok? && S.QuadFor(t, Some(g3)).Ok?
    ensures var quads := {S.QuadFor(t, Some(g1)).value, S.QuadFor(t, Some(g2)).value, S.QuadFor(t, Some(g3)).value};
            S.LenOf(quads, None) == Ok(1) && S.LenOf(quads, Some(g1)) == Ok(1)
  {
    PatternOfTriple(t, Some(g1));
    PatternOfTriple(t, Some(g2));
    PatternOfTriple(t, Some(g3));
    var q1, q2, q3 := S.QuadFor(t, Some(g1)).value, S.QuadFor(t, Some(g2)).value, S.QuadFor(t, Some(g3)).value;
    C.TripleToQuad(t, Some(g1));
    C.TripleToQuad(t, Some(g2));
    C.TripleToQuad(t, Some(g3));
    var quads := {q1, q2, q3};
    assert Ox.TriplesIn(quads, None) == {Ox.TripleOf(q1)};
    assert Ox.TriplesIn(quads, Some(q1.graphName)) == {Ox.TripleOf(q1)};
  }

  /** `contexts()` lists a registered named graph under its IRI. */
  lemma NamedGraphListed(d: Ox.Dataset, iri: string)
    requires Ox.ValidDataset(d) && Ox.NamedNode(iri) in d.namedGraphs
    ensures R.Graph(R.URIRef(iri)) in S.ContextsOf(d, None).value
  {
  }

  /** `contexts()` never lists the default graph, unless a named graph carries its identifier. */
  lemma DefaultGraphNotListed(d: Ox.Dataset)
    requires Ox.ValidDataset(d) && Ox.NamedNode(R.DATASET_DEFAULT_GRAPH_ID) !in d.namedGraphs
    ensures R.Graph(R.URIRef(R.DATASET_DEFAULT_GRAPH_ID)) !in S.ContextsOf(d, None).value
  {
  }

  /** `contexts(triple)` lists the graph the triple was added to. */
  lemma {:induction false} ContextsOfAddedTriple(d: Ox.Dataset, t: R.Triple, g: R.Graph)
    requires Ox.ValidDataset(d) && Storable(t) && NamesGraph(g)
    requires S.QuadFor(t, Some(g)).Ok? && S.QuadFor(t, Some(g)).value in d.quads
    ensures S.ContextsOf(d, Some(t)).Ok? && g in S.ContextsOf(d, Some(t)).value
  {
    PatternOfTriple(t, None);
    PatternOfTriple(t, Some(g));
    C.TripleToQuad(t, Some(g));
    C.TripleToQuad(t, None);
    C.GraphRoundTrip(g, None);
  }
}
