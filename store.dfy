/**
  OxigraphStore (oxrdflib/store.py): rdflib's store interface on top of a
  pyoxigraph store. It converts terms, patterns and query arguments, opens the
  backend lazily, and keeps the prefix/namespace registry.
 */
module Store {
  import opened Wrappers
  import R = Rdflib
  import Ox = Oxigraph
  import C = Converter
  import D = PyDict
  import Reg = Registry
  import T = SparqlText
  import B = Backend

  /** rdflib's `VALID_STORE`, the value `open` returns. */
  const VALID_STORE: int := 1

  /** The `queryGraph` rdflib passes to ask for the union of all graphs. */
  const UNION: string := "__UNION__"

  /** A query or update given as text, or as an already parsed rdflib object. */
  datatype Request = Parsed | Text(text: string)

  /** The `queryGraph` argument: a plain string, or an rdflib node naming a graph. */
  datatype QueryGraph = Plain(name: string) | GraphNode(node: R.Node)

  /** The three kinds of rdflib result `query` builds, with the backend's data they carry. */
  datatype QueryResult =
    | Ask(answer: bool)
    | Select(variables: seq<string>, solutions: seq<seq<Option<Ox.Term>>>)
    | Construct(triples: seq<Ox.Term>)

  /** One item `triples` yields: the converted subject, predicate and object, and the graph. */
  datatype Match = Match(subject: R.Value, pred: R.Value, obj: R.Value, graph: R.Graph)

  /** The quad `add` inserts for a triple in a graph. */
  function QuadFor(triple: R.Triple, context: Option<R.Graph>): (r: Result<Ox.Quad>)
    ensures r.Ok? ==> Ox.WellKinded(r.value)
    ensures r.Ok? ==> C.ToOx(Some(R.TripleValue(triple)), context) == Ok(Some(Ox.QuadResult(r.value)))
    ensures r.Err? <==> C.ToOx(Some(R.TripleValue(triple)), context).Err?
  {
    var c :- C.ToOx(Some(R.TripleValue(triple)), context);
    assert c.Some? && c.value.QuadResult?;
    Ok(c.value.quad)
  }

  /**
    `[to_ox(q) for q in quads]`: every 4-tuple converted in order; the first one
    that fails decides the error and nothing is produced.
   */
  function ConvertAll(qs: seq<R.QuadTuple>): (r: Result<seq<Ox.Quad>>)
    ensures r.Ok? ==> |r.value| == |qs|
    ensures r.Ok? ==> forall i :: 0 <= i < |qs| ==> C.ToOx(Some(R.QuadValue(qs[i])), None) == Ok(Some(Ox.QuadResult(r.value[i])))
    ensures r.Ok? ==> forall i :: 0 <= i < |qs| ==> Ox.WellKinded(r.value[i])
    ensures r.Err? ==> exists i :: && 0 <= i < |qs|
                                   && (forall j :: 0 <= j < i ==> C.ToOx(Some(R.QuadValue(qs[j])), None).Ok?)
                                   && C.ToOx(Some(R.QuadValue(qs[i])), None) == Err(r.error)
    decreases |qs|
  {
    if qs == [] then Ok([])
    else
      var c :- C.ToOx(Some(R.QuadValue(qs[0])), None);
      assert c.Some? && c.value.QuadResult?;
      var rest :- ConvertAll(qs[1..]);
      Ok([c.value.quad] + rest)
  }

  /** The item `triples` yields for a backend quad. */
  function MatchOf(q: Ox.Quad): (m: Match)
    requires Ox.WellKinded(q)
  {
    Match(C.FromOxTerm(q.subject).value, C.FromOxTerm(q.pred).value, C.FromOxTerm(q.obj).value,
          C.FromOxGraphName(q.graphName).value)
  }

  /**
    What `triples(pattern, context)` yields over `quads`: one item per matching quad;
    a pattern that does not convert, or that the backend refuses, yields nothing.
   */
  function TriplesOf(quads: set<Ox.Quad>, pattern: R.TriplePattern, context: Option<R.Graph>): (r: set<Match>)
    requires forall q :: q in quads ==> Ox.WellKinded(q)
    ensures C.ToOxQuadPattern(pattern, context).Err? ==> r == {}
    ensures C.ToOxQuadPattern(pattern, context).Ok? && !Ox.PatternKinds(C.ToOxQuadPattern(pattern, context).value) ==> r == {}
    ensures C.ToOxQuadPattern(pattern, context).Ok? && Ox.PatternKinds(C.ToOxQuadPattern(pattern, context).value) ==>
              forall q :: q in quads && Ox.Matches(q, C.ToOxQuadPattern(pattern, context).value) ==> MatchOf(q) in r
    ensures forall m :: m in r ==> exists q :: && q in quads && MatchOf(q) == m
                                                && C.ToOxQuadPattern(pattern, context).Ok?
                                                && Ox.Matches(q, C.ToOxQuadPattern(pattern, context).value)
  {
    match C.ToOxQuadPattern(pattern, context)
    case Err(_) => {}
    case Ok(pat) =>
      match Ox.Select(quads, pat)
      case Err(_) => {}
      case Ok(selected) => set q | q in selected :: MatchOf(q)
  }

  /** The quads `remove(pattern, context)` leaves, or the error it raises. */
  function RemovedFrom(quads: set<Ox.Quad>, pattern: R.TriplePattern, context: Option<R.Graph>): (r: Result<set<Ox.Quad>>)
    ensures r.Err? <==> C.ToOxQuadPattern(pattern, context).Err? || !Ox.PatternKinds(C.ToOxQuadPattern(pattern, context).value)
    ensures r.Ok? ==> r.value <= quads
    ensures r.Ok? ==> forall q :: q in quads && q !in r.value ==> Ox.Matches(q, C.ToOxQuadPattern(pattern, context).value)
    ensures r.Ok? ==> forall q :: q in r.value ==> !Ox.Matches(q, C.ToOxQuadPattern(pattern, context).value)
  {
    var pat :- C.ToOxQuadPattern(pattern, context);
    var selected :- Ox.Select(quads, pat);
    Ok(quads - selected)
  }

  /**
    `len(store)` or `store.__len__(context)`: the number of distinct triples in the
    union of all graphs, or in the given graph. A graph identifier that converts to
    something other than a graph name is refused with TypeError, the kind pyoxigraph's
    check of the `default_graph` argument raises.
   */
  function LenOf(quads: set<Ox.Quad>, context: Option<R.Graph>): (r: Result<nat>)
    ensures context.None? ==> r == Ok(|Ox.TriplesIn(quads, None)|)
    ensures context.Some? && r.Ok? ==> exists g :: C.ToOx(Some(R.GraphValue(context.value)), None) == Ok(Some(Ox.TermResult(g)))
                                                && r.value == |Ox.TriplesIn(quads, Some(g))|
    ensures context.Some? ==> (r.Err? <==> !C.ConvertsTo(context.value.identifier, Ox.GraphNameKind))
    ensures context.Some? && r.Err? ==> r.error == (if context.value.identifier.Variable? then ValueError else TypeError)
  {
    match context
    case None => Ok(|Ox.TriplesIn(quads, None)|)
    case Some(g) =>
      var c :- C.ToOx(Some(R.GraphValue(g)), None);
      assert c.Some? && c.value.TermResult?;
      if Ox.GraphNameKind(c.value.term) then Ok(|Ox.TriplesIn(quads, Some(c.value.term))|)
      else Err(TypeError)
  }

  /**
    `contexts(triple)`: every named graph the store knows of, or the graphs holding
    the given triple. The default graph is not a named graph.
   */
  function ContextsOf(d: Ox.Dataset, triple: Option<R.Triple>): (r: Result<set<R.Graph>>)
    requires Ox.ValidDataset(d)
    ensures triple.None? ==> r.Ok? && forall g :: g in r.value <==> exists n :: n in d.namedGraphs && C.FromOxGraphName(n) == Ok(g)
    ensures triple.Some? ==> (r.Err? <==> C.ToOxQuadPattern(R.TripleAsPattern(triple.value), None).Err?
                                          || !Ox.PatternKinds(C.ToOxQuadPattern(R.TripleAsPattern(triple.value), None).value))
    ensures triple.Some? && r.Err? ==> r.error == ValueError || r.error == TypeError
    ensures triple.Some? && r.Ok? ==> C.ToOxQuadPattern(R.TripleAsPattern(triple.value), None).Ok?
    ensures triple.Some? && r.Ok? ==>
              forall g :: g in r.value <==> exists q :: q in d.quads && Ox.Matches(q, C.ToOxQuadPattern(R.TripleAsPattern(triple.value), None).value)
                                                    && C.FromOxGraphName(q.graphName) == Ok(g)
  {
    match triple
    case None => Ok(set n | n in d.namedGraphs :: C.FromOxGraphName(n).value)
    case Some(t) =>
      var pat :- C.ToOxQuadPattern(R.TripleAsPattern(t), None);
      var selected :- Ox.Select(d.quads, pat);
      Ok(set q | q in selected :: C.FromOxGraphName(q.graphName).value)
  }

  /** The backend result an rdflib result of `query` is built from. */
  function BackendResult(out: QueryResult): Ox.QueryResults {
    match out
    case Ask(answer) => Ox.QueryBoolean(answer)
    case Select(variables, solutions) => Ox.QuerySolutions(variables, solutions)
    case Construct(triples) => Ox.QueryTriples(triples)
  }

  /**
    The three-way dispatch on the backend's query result: a boolean, solutions or
    triples are carried over unchanged in the matching rdflib result; anything else
    is a ValueError.
   */
  function Dispatch(r: Ox.QueryResults): (out: Result<QueryResult>)
    ensures out.Err? <==> r.OtherResult?
    ensures out.Err? ==> out.error == ValueError
    ensures out.Ok? ==> BackendResult(out.value) == r
  {
    match r
    case QueryBoolean(answer) => Ok(Ask(answer))
    case QuerySolutions(variables, solutions) => Ok(Select(variables, solutions))
    case QueryTriples(triples) => Ok(Construct(triples))
    case OtherResult => Err(ValueError)
  }

  /** Every rdflib result kind is reached, from exactly the backend result it carries. */
  lemma DispatchOfBackendResult(out: QueryResult)
    ensures Dispatch(BackendResult(out)) == Ok(out)
  {
  }

  /** The `default_graph` argument of a query: the converted node, or none for a plain string. */
  function DefaultGraphArg(queryGraph: QueryGraph): (r: Result<Option<Ox.Term>>)
    ensures queryGraph.Plain? ==> r == Ok(None)
    ensures queryGraph.GraphNode? ==> (r.Err? <==> queryGraph.node.Variable?)
    ensures queryGraph.GraphNode? && r.Ok? ==> r.value.Some? && C.NodeToOx(queryGraph.node) == Ok(r.value.value)
  {
    match queryGraph
    case Plain(_) => Ok(None)
    case GraphNode(n) =>
      var c :- C.ToOx(Some(R.NodeValue(n)), None);
      Ok(Some(c.value.term))
  }

  class OxigraphStore {
    var store: B.Store?
    var namespaceForPrefix: D.Dict<string, string>
    var prefixForNamespace: D.Dict<string, string>

    function Registry(): Reg.Maps
      reads this
    {
      Reg.Maps(namespaceForPrefix, prefixForNamespace)
    }

    /** The registry is a bijection of well-formed dictionaries, and the backend, once there, is a valid dataset. */
    ghost predicate Valid()
      reads this, store
    {
      && Reg.Valid(Registry()) && Reg.Bijection(Registry())
      && (store != null ==> store.Valid())
    }

    /** The backend's quads; a store not yet opened holds none. */
    function Quads(): set<Ox.Quad>
      reads this, store
    {
      if store == null then {} else store.quads
    }

    function Graphs(): set<Ox.Term>
      reads this, store
    {
      if store == null then {} else store.namedGraphs
    }

    function Content(): Ox.Dataset
      reads this, store
    {
      Ox.Dataset(Quads(), Graphs())
    }

    /** `OxigraphStore(store=store)`: an existing backend or none yet, and an empty registry. */
    constructor(store: B.Store?)
      requires store != null ==> store.Valid()
      ensures this.store == store
      ensures Registry() == Reg.Empty()
      ensures Valid()
    {
      this.store := store;
      namespaceForPrefix := D.Empty();
      prefixForNamespace := D.Empty();
    }

    /**
      `open(configuration)`: only before any backend exists, opened or created lazily;
      the backend then holds what the directory `configuration` holds (`disk`).
     */
    method Open(configuration: string, disk: map<string, Ox.Content>) returns (r: Result<int>)
      requires Valid()
      modifies this`store
      ensures store == old(store) || fresh(store)
      ensures Valid()
      ensures old(store) != null ==> r == Err(ValueError) && store == old(store)
      ensures old(store) == null ==> && r == Ok(VALID_STORE) && store != null && fresh(store)
                                     && Content() == (if configuration in disk then disk[configuration] else Ox.Dataset({}, {}))
    {
      if store != null {
        return Err(ValueError);
      }
      store := new B.Store(if configuration in disk then disk[configuration] else Ox.Dataset({}, {}));
      return Ok(VALID_STORE);
    }

    /** `_inner`: an empty in-memory backend is created on first use and reused afterwards. */
    method Inner() returns (inner: B.Store)
      requires Valid()
      modifies this`store
      ensures store == old(store) || fresh(store)
      ensures Valid()
      ensures inner == store
      ensures old(store) != null ==> store == old(store)
      ensures old(store) == null ==> fresh(store) && Content() == Ox.Dataset({}, {})
    {
      if store == null {
        store := new B.Store(Ox.Dataset({}, {}));
      }
      return store;
    }

    /** `add(triple, context, quoted)`: refuses formulas, otherwise inserts exactly the converted quad. */
    method Add(triple: R.Triple, context: R.Graph, quoted: bool) returns (out: Outcome)
      requires Valid()
      modifies this`store, store
      ensures store == old(store) || fresh(store)
      ensures Valid()
      ensures quoted ==> out == Fail(ValueError) && store == old(store) && Content() == old(Content())
      ensures !quoted ==> store != null && (old(store) != null ==> store == old(store))
      ensures !quoted ==> (out.Pass? <==> QuadFor(triple, Some(context)).Ok?)
      ensures out.Pass? ==> && Quads() == old(Quads()) + {QuadFor(triple, Some(context)).value}
                            && Graphs() == old(Graphs()) + B.GraphOf(QuadFor(triple, Some(context)).value)
      ensures out.Fail? ==> Content() == old(Content())
      ensures out.Fail? && !quoted ==> out.error == QuadFor(triple, Some(context)).error
      ensures out.Fail? ==> out.error == ValueError || out.error == TypeError
    {
      if quoted {
        return Fail(ValueError);
      }
      var inner := Inner();
      var q := QuadFor(triple, Some(context));
      if q.Err? {
        return Fail(q.error);
      }
      inner.Add(q.value);
      return Pass;
    }

    /** `addN(quads)`: every quad is converted first, so one that fails leaves the backend as it was. */
    method AddN(quads: seq<R.QuadTuple>) returns (out: Outcome)
      requires Valid()
      modifies this`store, store
      ensures store == old(store) || fresh(store)
      ensures Valid()
      ensures store != null && (old(store) != null ==> store == old(store))
      ensures out.Pass? <==> ConvertAll(quads).Ok?
      ensures out.Pass? ==> var qs := ConvertAll(quads).value;
                            && Quads() == old(Quads()) + (set i | 0 <= i < |qs| :: qs[i])
                            && Graphs() == old(Graphs()) + (set i | 0 <= i < |qs| && !qs[i].graphName.DefaultGraph? :: qs[i].graphName)
      ensures out.Fail? ==> Content() == old(Content()) && out.error == ConvertAll(quads).error
    {
      var inner := Inner();
      var qs := ConvertAll(quads);
      if qs.Err? {
        return Fail(qs.error);
      }
      inner.Extend(qs.value);
      return Pass;
    }

    /**
      `remove(pattern, context)`: every backend quad that matches the converted pattern
      is removed, one at a time; the other quads and the named graphs stay.
     */
    method Remove(pattern: R.TriplePattern, context: Option<R.Graph>) returns (out: Outcome)
      requires Valid()
      modifies this`store, store
      ensures store == old(store) || fresh(store)
      ensures Valid()
      ensures store != null && (old(store) != null ==> store == old(store))
      ensures out.Pass? <==> RemovedFrom(old(Quads()), pattern, context).Ok?
      ensures out.Pass? ==> Quads() == RemovedFrom(old(Quads()), pattern, context).value
      ensures out.Fail? ==> Quads() == old(Quads()) && out.error == RemovedFrom(old(Quads()), pattern, context).error
      ensures Graphs() == old(Graphs())
    {
      var inner := Inner();
      var pat := C.ToOxQuadPattern(pattern, context);
      if pat.Err? {
        return Fail(pat.error);
      }
      var selected := inner.QuadsForPattern(pat.value);
      if selected.Err? {
        return Fail(selected.error);
      }
      ghost var start := inner.quads;
      assert selected == Ox.Select(start, pat.value);
      var todo := selected.value;
      while todo != {}
        invariant todo <= selected.value
        invariant inner == store && inner.Valid()
        invariant inner.quads == start - (selected.value - todo)
        invariant inner.namedGraphs == old(Graphs())
        decreases |todo|
      {
        var q :| q in todo;
        inner.Remove(q);
        todo := todo - {q};
      }
      assert inner.quads == start - selected.value;
      return Pass;
    }

    /** `triples(pattern, context)` */
    method Triples(pattern: R.TriplePattern, context: Option<R.Graph>) returns (matches: set<Match>)
      requires Valid()
      modifies this`store
      ensures store == old(store) || fresh(store)
      ensures Valid()
      ensures store != null && (old(store) != null ==> store == old(store)) && Content() == old(Content())
      ensures matches == TriplesOf(Quads(), pattern, context)
    {
      var inner := Inner();
      matches := TriplesOf(inner.quads, pattern, context);
    }

    /** `__len__(context)` */
    method Len(context: Option<R.Graph>) returns (n: Result<nat>)
      requires Valid()
      modifies this`store
      ensures store == old(store) || fresh(store)
      ensures Valid()
      ensures store != null && (old(store) != null ==> store == old(store)) && Content() == old(Content())
      ensures n == LenOf(Quads(), context)
    {
      var inner := Inner();
      n := LenOf(inner.quads, context);
    }

    /** `contexts(triple)` */
    method Contexts(triple: Option<R.Triple>) returns (graphs: Result<set<R.Graph>>)
      requires Valid()
      modifies this`store
      ensures store == old(store) || fresh(store)
      ensures Valid()
      ensures store != null && (old(store) != null ==> store == old(store)) && Content() == old(Content())
      ensures graphs == ContextsOf(Content(), triple)
    {
      var inner := Inner();
      graphs := ContextsOf(inner.Snapshot(), triple);
    }

    /**
      `query(query, initNs, initBindings, queryGraph, **kwargs)`: parsed queries and
      extra keyword arguments are refused before anything else happens; otherwise the
      prologue and bindings are added to the text, the backend evaluates it with the
      union or the given graph as default graph, and the result is dispatched on its kind.
     */
    method Query(query: Request, initNs: D.Dict<string, string>, initBindings: D.Dict<string, R.Node>,
                 queryGraph: QueryGraph, hasKwargs: bool, engine: Ox.QueryEngine, n3: R.Node -> string)
      returns (r: Result<QueryResult>)
      requires Valid() && D.Valid(initNs) && D.Valid(initBindings)
      modifies this`store
      ensures store == old(store) || fresh(store)
      ensures Valid()
      ensures Content() == old(Content()) && Registry() == old(Registry())
      ensures query.Parsed? || hasKwargs ==> r == Err(NotImplementedError) && store == old(store)
      ensures query.Text? && !hasKwargs ==> store != null && (old(store) != null ==> store == old(store))
      ensures query.Text? && !hasKwargs ==>
                r == (var dg :- DefaultGraphArg(queryGraph);
                      var res :- engine(Content(), T.QueryText(Registry(), initNs, initBindings, query.text, n3),
                                        queryGraph == Plain(UNION), dg);
                      Dispatch(res))
    {
      if query.Parsed? || hasKwargs {
        return Err(NotImplementedError);
      }
      var text := T.QueryText(Registry(), initNs, initBindings, query.text, n3);
      var inner := Inner();
      var dg := DefaultGraphArg(queryGraph);
      if dg.Err? {
        return Err(dg.error);
      }
      var res := inner.Query(engine, text, queryGraph == Plain(UNION), dg.value);
      if res.Err? {
        return Err(res.error);
      }
      r := Dispatch(res.value);
    }

    /**
      `update(update, initNs, initBindings, queryGraph)`: a parsed update cannot be
      prefixed (TypeError); initial bindings and any graph but the default-graph
      identifier are refused; otherwise the backend applies the prefixed text.
     */
    method Update(update: Request, initNs: D.Dict<string, string>, initBindings: D.Dict<string, R.Node>,
                  queryGraph: QueryGraph, engine: Ox.UpdateEngine)
      returns (out: Outcome)
      requires Valid() && D.Valid(initNs) && D.Valid(initBindings)
      modifies this`store, store
      ensures store == old(store) || fresh(store)
      ensures Valid()
      ensures Registry() == old(Registry())
      ensures update.Parsed? ==> out == Fail(TypeError)
      ensures update.Text? && initBindings.m != map[] ==> out == Fail(NotImplementedError)
      ensures update.Text? && initBindings.m == map[] && queryGraph != GraphNode(R.URIRef(R.DATASET_DEFAULT_GRAPH_ID)) ==>
                out == Fail(NotImplementedError)
      ensures update.Parsed? || initBindings.m != map[] || queryGraph != GraphNode(R.URIRef(R.DATASET_DEFAULT_GRAPH_ID)) ==>
                store == old(store) && Content() == old(Content())
      ensures update.Text? && initBindings.m == map[] && queryGraph == GraphNode(R.URIRef(R.DATASET_DEFAULT_GRAPH_ID)) ==>
                var res := engine(old(Content()), T.UpdateText(old(Registry()), initNs, update.text));
                && store != null && (old(store) != null ==> store == old(store))
                && (res.Ok? ==> out == Pass && Content() == res.value)
                && (res.Err? ==> out == Fail(res.error) && Content() == old(Content()))
    {
      if update.Parsed? {
        return Fail(TypeError);
      }
      var text := T.UpdateText(Registry(), initNs, update.text);
      if initBindings.keys != [] {
        assert initBindings.keys[0] in initBindings.m;
        return Fail(NotImplementedError);
      }
      if queryGraph != GraphNode(R.URIRef(R.DATASET_DEFAULT_GRAPH_ID)) {
        return Fail(NotImplementedError);
      }
      assert initBindings.m == map[];
      out := ApplyUpdate(engine, text);
    }

    /** The backend step of `update`: the engine runs `text` on the backend, created on first use. */
    method ApplyUpdate(engine: Ox.UpdateEngine, text: string) returns (out: Outcome)
      requires Valid()
      modifies this`store, store
      ensures store == old(store) || fresh(store)
      ensures Valid()
      ensures Registry() == old(Registry())
      ensures store != null && (old(store) != null ==> store == old(store))
      ensures var res := engine(old(Content()), text);
              && (res.Ok? ==> out == Pass && Content() == res.value)
              && (res.Err? ==> out == Fail(res.error) && Content() == old(Content()))
    {
      ghost var before := Content();
      var inner := Inner();
      assert inner.Snapshot() == before;
      out := inner.Update(engine, text);
    }

    /** `add_graph(graph)` */
    method AddGraph(graph: R.Graph) returns (out: Outcome)
      requires Valid()
      modifies this`store, store
      ensures store == old(store) || fresh(store)
      ensures Valid()
      ensures store != null && (old(store) != null ==> store == old(store)) && Quads() == old(Quads())
      ensures out.Pass? <==> C.ConvertsTo(graph.identifier, Ox.GraphNameKind)
      ensures out.Pass? ==> var g := C.NodeToOx(graph.identifier).value;
                            Graphs() == old(Graphs()) + (if g.DefaultGraph? then {} else {g})
      ensures out.Fail? ==> Graphs() == old(Graphs())
    {
      var inner := Inner();
      var g := C.ToOx(Some(R.GraphValue(graph)), None);
      if g.Err? {
        return Fail(g.error);
      }
      out := inner.AddGraph(g.value.value.term);
    }

    /** `remove_graph(graph)` */
    method RemoveGraph(graph: R.Graph) returns (out: Outcome)
      requires Valid()
      modifies this`store, store
      ensures store == old(store) || fresh(store)
      ensures Valid()
      ensures store != null && (old(store) != null ==> store == old(store))
      ensures out.Pass? <==> C.ConvertsTo(graph.identifier, Ox.GraphNameKind)
      ensures out.Pass? ==> var g := C.NodeToOx(graph.identifier).value;
                            && Quads() == (set q | q in old(Quads()) && q.graphName != g)
                            && Graphs() == old(Graphs()) - {g}
      ensures out.Fail? ==> Content() == old(Content())
    {
      var inner := Inner();
      var g := C.ToOx(Some(R.GraphValue(graph)), None);
      if g.Err? {
        return Fail(g.error);
      }
      out := inner.RemoveGraph(g.value.value.term);
    }

    /** `_delete_from_prefix(prefix)` */
    method DeleteFromPrefix(prefix: string)
      requires Reg.Valid(Registry())
      modifies this`namespaceForPrefix, this`prefixForNamespace
      ensures Registry() == Reg.DeleteFromPrefix(old(Registry()), prefix)
      decreases |namespaceForPrefix.keys| + |prefixForNamespace.keys|, 1
    {
      if prefix !in namespaceForPrefix.m {
        return;
      }
      var namespace := namespaceForPrefix.m[prefix];
      namespaceForPrefix := D.Delete(namespaceForPrefix, prefix);
      DeleteFromNamespace(namespace);
    }

    /** `_delete_from_namespace(namespace)` */
    method DeleteFromNamespace(namespace: string)
      requires Reg.Valid(Registry())
      modifies this`namespaceForPrefix, this`prefixForNamespace
      ensures Registry() == Reg.DeleteFromNamespace(old(Registry()), namespace)
      decreases |namespaceForPrefix.keys| + |prefixForNamespace.keys|, 1
    {
      if namespace !in prefixForNamespace.m {
        return;
      }
      var prefix := prefixForNamespace.m[namespace];
      prefixForNamespace := D.Delete(prefixForNamespace, namespace);
      DeleteFromPrefix(prefix);
    }

    /**
      `bind(prefix, namespace, override)`: the registry stays a bijection, and once the
      bind takes effect the prefix and the namespace are bound to each other.
     */
    method Bind(prefix: string, namespace: string, override: bool)
      requires Valid()
      modifies this`namespaceForPrefix, this`prefixForNamespace
      ensures Valid()
      ensures Registry() == Reg.Bind(old(Registry()), prefix, namespace, override)
    {
      ghost var before := Registry();
      if !override && (prefix in namespaceForPrefix.m || namespace in prefixForNamespace.m) {
        return;
      }
      DeleteFromPrefix(prefix);
      DeleteFromNamespace(namespace);
      namespaceForPrefix := D.Put(namespaceForPrefix, prefix, namespace);
      prefixForNamespace := D.Put(prefixForNamespace, namespace, prefix);
      Reg.BindKeepsBijection(before, prefix, namespace, override);
    }

    /** `prefix(namespace)` */
    function Prefix(namespace: string): (p: Option<string>)
      reads this
      ensures p == Reg.Prefix(Registry(), namespace)
    {
      D.Get(prefixForNamespace, namespace)
    }

    /** `namespace(prefix)` */
    function Namespace(prefix: string): (n: Option<string>)
      reads this
      ensures n == Reg.Namespace(Registry(), prefix)
    {
      D.Get(namespaceForPrefix, prefix)
    }

    /** `namespaces()` */
    function Namespaces(): (entries: seq<(string, string)>)
      requires D.Valid(namespaceForPrefix)
      reads this
      ensures forall p, n :: (p, n) in entries <==> Namespace(p) == Some(n)
    {
      D.Items(namespaceForPrefix)
    }
  }
}
