/**
  Short runs of an OxigraphStore against a fresh in-memory backend, following what
  the test suite of the adapter checks: a late `open` fails, `remove` with the
  all-wildcard pattern empties the store, an empty graph can be added and removed,
  and rebinding a prefix drops its old namespace.
 */
module Scenarios {
  import opened Wrappers
  import R = Rdflib
  import Ox = Oxigraph
  import C = Converter
  import S = Store
  import Reg = Registry
  import L = StoreLemmas

  /** `open` after an `add` has created the backend raises ValueError (tests/test_store.py). */
  method LateOpenFails(t: R.Triple, g: R.Graph, configuration: string, disk: map<string, Ox.Content>)
    returns (r: Result<int>)
    ensures r == Err(ValueError)
  {
    var s := new S.OxigraphStore(null);
    var _ := s.Add(t, g, false);
    r := s.Open(configuration, disk);
  }

  /** `open` on a store that has not been used yet succeeds and the backend holds the directory's content. */
  method EarlyOpenLoads(configuration: string, disk: map<string, Ox.Content>)
    returns (r: Result<int>, n: Result<nat>)
    requires configuration in disk
    ensures r == Ok(S.VALID_STORE)
    ensures n == S.LenOf(disk[configuration].quads, None)
  {
    var s := new S.OxigraphStore(null);
    r := s.Open(configuration, disk);
    n := s.Len(None);
  }

  /**
    One triple added to three graphs counts once, in the union and in one graph;
    removing `(None, None, None)` leaves nothing.
   */
  method RemoveAny(t: R.Triple, g1: R.Graph, g2: R.Graph, g3: R.Graph)
    returns (before: Result<nat>, inOne: Result<nat>, after: Result<nat>)
    requires L.Storable(t) && L.NamesGraph(g1) && L.NamesGraph(g2) && L.NamesGraph(g3)
    ensures before == Ok(1) && inOne == Ok(1) && after == Ok(0)
  {
    var s := new S.OxigraphStore(null);
    L.OneTripleThreeGraphs(t, g1, g2, g3);
    var _ := s.Add(t, g1, false);
    var _ := s.Add(t, g2, false);
    var _ := s.Add(t, g3, false);
    assert s.Quads() == {S.QuadFor(t, Some(g1)).value, S.QuadFor(t, Some(g2)).value, S.QuadFor(t, Some(g3)).value};
    before := s.Len(None);
    inOne := s.Len(Some(g1));
    L.RemoveAnyEmpties(s.Quads());
    var _ := s.Remove((None, None, None), None);
    assert Ox.TriplesIn(s.Quads(), None) == {};
    after := s.Len(None);
  }

  /** A graph added with no triples is listed by `contexts()`, and no longer once it is removed. */
  method EmptyGraphLifecycle(iri: string) returns (listedAfterAdd: bool, listedAfterRemove: bool)
    requires iri != R.DATASET_DEFAULT_GRAPH_ID
    ensures listedAfterAdd && !listedAfterRemove
  {
    var s := new S.OxigraphStore(null);
    var g := R.Graph(R.URIRef(iri));
    var _ := s.AddGraph(g);
    L.NamedGraphListed(s.Content(), iri);
    var c := s.Contexts(None);
    listedAfterAdd := c.Ok? && g in c.value;
    var _ := s.RemoveGraph(g);
    assert s.Graphs() == {};
    c := s.Contexts(None);
    listedAfterRemove := c.Ok? && g in c.value;
  }

  /**
    A named graph whose only triple is removed again is still listed by `contexts()`
    and counts no triples (tests/test_dataset.py, graph-aware behaviour).
   */
  method EmptiedGraphStaysListed(t: R.Triple, iri: string) returns (count: Result<nat>, listed: bool)
    requires L.Storable(t) && iri != R.DATASET_DEFAULT_GRAPH_ID
    ensures count == Ok(0) && listed
  {
    var s := new S.OxigraphStore(null);
    var g := R.Graph(R.URIRef(iri));
    var _ := s.AddGraph(g);
    L.PatternOfTriple(t, Some(g));
    var _ := s.Add(t, g, false);
    L.RemoveInOneGraph(s.Quads(), t, g);
    var _ := s.Remove(R.TripleAsPattern(t), Some(g));
    assert s.Quads() == {};
    count := s.Len(Some(g));
    L.NamedGraphListed(s.Content(), iri);
    var c := s.Contexts(None);
    listed := c.Ok? && g in c.value;
  }

  /** `remove_graph` on the default graph drops its triples (tests/test_dataset.py). */
  method RemoveDefaultGraph(t: R.Triple) returns (before: Result<nat>, after: Result<nat>)
    requires L.Storable(t)
    ensures before == Ok(1) && after == Ok(0)
  {
    var s := new S.OxigraphStore(null);
    var g := R.Graph(R.URIRef(R.DATASET_DEFAULT_GRAPH_ID));
    L.PatternOfTriple(t, Some(g));
    C.TripleToQuad(t, Some(g));
    var _ := s.Add(t, g, false);
    assert Ox.TriplesIn(s.Quads(), None) == {Ox.TripleOf(S.QuadFor(t, Some(g)).value)};
    before := s.Len(None);
    var _ := s.RemoveGraph(g);
    assert s.Quads() == {};
    after := s.Len(None);
  }

  /** Binding a prefix to a second namespace leaves the first namespace without a prefix. */
  method Rebind(prefix: string, first: string, second: string)
    returns (before: Option<string>, after: Option<string>, firstPrefix: Option<string>)
    requires first != second
    ensures before == Some(first) && after == Some(second) && firstPrefix == None
  {
    var s := new S.OxigraphStore(null);
    s.Bind(prefix, first, true);
    before := s.Namespace(prefix);
    ghost var r := s.Registry();
    s.Bind(prefix, second, true);
    Reg.BindUnbindsOldPartners(r, prefix, second, true);
    after := s.Namespace(prefix);
    firstPrefix := s.Prefix(first);
  }

  /** Without override, binding a bound prefix changes nothing. */
  method BindWithoutOverride(prefix: string, first: string, second: string)
    returns (after: Option<string>)
    ensures after == Some(first)
  {
    var s := new S.OxigraphStore(null);
    s.Bind(prefix, first, true);
    s.Bind(prefix, second, false);
    after := s.Namespace(prefix);
  }
}
