/**
  The term converter of oxrdflib/_converter.py: rdflib values to pyoxigraph terms,
  quads and quad patterns, and pyoxigraph terms and graph names back to rdflib.
 */
module Converter {
  import opened Wrappers
  import R = Rdflib
  import Ox = Oxigraph

  /** An rdflib literal as `ox.Literal`: its lexical form and language, and its datatype only when it has one. */
  function LiteralToOx(lexical: string, tag: R.Tag): (r: Result<Ox.Term>)
    ensures r.Ok? && r.value.Literal? && r.value.value == lexical
    ensures r.value.language == (if tag.Lang? then Some(tag.language) else None)
    ensures r.value.datatypeIri == (match tag
                                    case Plain => Ox.XSD_STRING
                                    case Lang(_) => Ox.RDF_LANG_STRING
                                    case Typed(d) => d)
  {
    Ox.NewLiteral(lexical,
                  if tag.Lang? then Some(tag.language) else None,
                  if tag.Typed? then Some(tag.datatypeIri) else None)
  }

  /**
    The branches of `to_ox` a node goes through. The comparison with the
    default-graph identifier comes before the IRI branch.
   */
  function NodeToOx(n: R.Node): (r: Result<Ox.Term>)
    ensures r.Err? <==> n.Variable?
    ensures r.Err? ==> r.error == ValueError
    ensures r.Ok? ==> (r.value.DefaultGraph? <==> n == R.URIRef(R.DATASET_DEFAULT_GRAPH_ID))
  {
    if n == R.URIRef(R.DATASET_DEFAULT_GRAPH_ID) then Ok(Ox.DefaultGraph)
    else
      match n
      case URIRef(iri) => Ok(Ox.NamedNode(iri))
      case BNode(id) => Ok(Ox.BlankNode(id))
      case Literal(lexical, tag) => LiteralToOx(lexical, tag)
      case Variable(_) => Err(ValueError)
  }

  /** `to_ox(context)` for the optional graph a 3-tuple is placed in. */
  function ContextToOx(context: Option<R.Graph>): (r: Result<Option<Ox.Converted>>)
    ensures context.None? ==> r == Ok(None)
    ensures context.Some? ==> (r.Err? <==> context.value.identifier.Variable?)
    ensures r.Err? ==> r.error == ValueError
    ensures r.Ok? && context.Some? ==> r.value == Some(Ox.TermResult(NodeToOx(context.value.identifier).value))
  {
    match context
    case None => Ok(None)
    case Some(g) =>
      var t :- NodeToOx(g.identifier);
      Ok(Some(Ox.TermResult(t)))
  }

  /**
    `to_ox(term, context)`. A node or a graph becomes a term, a 3-tuple a quad in
    the graph `context`, a 4-tuple a quad in its own fourth item; anything else
    raises ValueError.
   */
  function ToOx(term: Option<R.Value>, context: Option<R.Graph>): (r: Result<Option<Ox.Converted>>)
    ensures term.None? <==> r == Ok(None)
    ensures r.Ok? && term.Some? && !term.value.TupleValue? ==> r.value.value.TermResult?
    ensures r.Ok? && term.Some? && term.value.TupleValue? ==> r.value.value.QuadResult?
    ensures term.Some? && term.value.TupleValue? && |term.value.items| != 3 && |term.value.items| != 4 ==> r == Err(ValueError)
    ensures r.Ok? && r.value.Some? && r.value.value.QuadResult? ==> Ox.WellKinded(r.value.value.quad)
    ensures term.Some? && term.value.NodeValue? ==> (r.Err? <==> term.value.node.Variable?)
    ensures term.Some? && term.value.GraphValue? ==> (r.Err? <==> term.value.graph.identifier.Variable?)
    ensures r.Err? && !(term.Some? && term.value.TupleValue?) ==> r.error == ValueError
    ensures r.Err? ==> r.error == ValueError || r.error == TypeError
  {
    match term
    case None => Ok(None)
    case Some(v) =>
      match v
      case NodeValue(n) =>
        var t :- NodeToOx(n);
        Ok(Some(Ox.TermResult(t)))
      case GraphValue(g) =>
        var t :- NodeToOx(g.identifier);
        Ok(Some(Ox.TermResult(t)))
      case TupleValue(items) =>
        if |items| == 3 then
          var s :- ToOx(items[0], None);
          var p :- ToOx(items[1], None);
          var o :- ToOx(items[2], None);
          var g :- ContextToOx(context);
          var q :- Ox.NewQuad(s, p, o, g);
          Ok(Some(Ox.QuadResult(q)))
        else if |items| == 4 then
          var s :- ToOx(items[0], None);
          var p :- ToOx(items[1], None);
          var o :- ToOx(items[2], None);
          var g :- ToOx(items[3], None);
          var q :- Ox.NewQuad(s, p, o, g);
          Ok(Some(Ox.QuadResult(q)))
        else
          Err(ValueError)
  }

  /**
    `to_ox_term_pattern(term)`: like `to_ox` on a node, but a bare IRI is never
    turned into the default graph; only a graph handle is.
   */
  function ToOxTermPattern(term: Option<R.Value>): (r: Result<Option<Ox.Term>>)
    ensures r.Ok? ==> (r.value.None? <==> term.None?)
    ensures term.Some? && term.value.TupleValue? ==> r == Err(ValueError)
    ensures r.Ok? && r.value.Some? && r.value.value.DefaultGraph? ==>
              term == Some(R.GraphValue(R.Graph(R.URIRef(R.DATASET_DEFAULT_GRAPH_ID))))
  {
    match term
    case None => Ok(None)
    case Some(NodeValue(URIRef(iri))) => Ok(Some(Ox.NamedNode(iri)))
    case Some(NodeValue(BNode(id))) => Ok(Some(Ox.BlankNode(id)))
    case Some(NodeValue(Literal(lexical, tag))) =>
      var t :- LiteralToOx(lexical, tag);
      Ok(Some(t))
    case Some(GraphValue(g)) =>
      var t :- NodeToOx(g.identifier);
      Ok(Some(t))
    case _ => Err(ValueError)
  }

  /** The context of a pattern as the value `to_ox_term_pattern` receives: a graph handle or nothing. */
  function GraphArg(context: Option<R.Graph>): Option<R.Value> {
    if context.None? then None else Some(R.GraphValue(context.value))
  }

  /**
    `to_ox_quad_pattern(triple, context)`: each of the four positions goes through
    `to_ox_term_pattern` on its own; a wildcard stays a wildcard, and the first
    position that fails is the error.
   */
  function ToOxQuadPattern(triple: R.TriplePattern, context: Option<R.Graph>): (r: Result<Ox.QuadPattern>)
    ensures r.Err? <==> || ToOxTermPattern(triple.0).Err? || ToOxTermPattern(triple.1).Err?
                        || ToOxTermPattern(triple.2).Err? || ToOxTermPattern(GraphArg(context)).Err?
    ensures r.Err? ==> r.error == ValueError
    ensures r.Ok? ==> r.value == Ox.QuadPattern(ToOxTermPattern(triple.0).value, ToOxTermPattern(triple.1).value,
                                                ToOxTermPattern(triple.2).value, ToOxTermPattern(GraphArg(context)).value)
    ensures r.Ok? ==> && (r.value.subject.None? <==> triple.0.None?)
                      && (r.value.pred.None? <==> triple.1.None?)
                      && (r.value.obj.None? <==> triple.2.None?)
                      && (r.value.graphName.None? <==> context.None?)
  {
    var s :- ToOxTermPattern(triple.0);
    var p :- ToOxTermPattern(triple.1);
    var o :- ToOxTermPattern(triple.2);
    var g :- ToOxTermPattern(GraphArg(context));
    Ok(Ox.QuadPattern(s, p, o, g))
  }

  /** A pattern position `to_ox_term_pattern` accepts: a wildcard, a node other than a variable, or a graph on one. */
  predicate PatternPosition(v: Option<R.Value>) {
    || v.None?
    || (v.value.NodeValue? && !v.value.node.Variable?)
    || (v.value.GraphValue? && !v.value.graph.identifier.Variable?)
  }

  /**
    `from_ox_graph_name(graph_name, store)`: the default graph comes back as a
    graph handle whose identifier is the default-graph identifier.
   */
  function FromOxGraphName(graphName: Ox.Term): (r: Result<R.Graph>)
    ensures r.Ok? <==> Ox.GraphNameKind(graphName)
    ensures r.Err? ==> r.error == ValueError
    ensures r.Ok? ==> (r.value.identifier.URIRef? || r.value.identifier.BNode?)
  {
    match graphName
    case NamedNode(v) => Ok(R.Graph(R.URIRef(v)))
    case BlankNode(v) => Ok(R.Graph(R.BNode(v)))
    case DefaultGraph => Ok(R.Graph(R.URIRef(R.DATASET_DEFAULT_GRAPH_ID)))
    case _ => Err(ValueError)
  }

  /**
    `from_ox` on a term that is not None. A literal comes back with its language
    when it has a non-empty one, otherwise with its datatype; a quoted triple
    comes back as the tuple of its converted components.
   */
  function FromOxTerm(t: Ox.Term): (r: Result<R.Value>)
    ensures Ox.ObjectKind(t) && Ox.WellFormed(t) ==> r.Ok?
    ensures t.DefaultGraph? ==> r.Err?
    ensures r.Err? ==> r.error == ValueError
    ensures r.Ok? && t.Literal? ==> r.value.NodeValue? && r.value.node.Literal?
    ensures r.Ok? && t.Literal? ==> (r.value.node.tag.Lang? <==> t.language.Some? && t.language.value != [])
    ensures r.Ok? && t.Literal? ==> r.value.node.lexical == t.value
    ensures r.Ok? && t.Literal? && t.language.Some? && t.language.value != [] ==> r.value.node.tag == R.Lang(t.language.value)
    ensures r.Ok? && t.Literal? && !(t.language.Some? && t.language.value != []) ==> r.value.node.tag == R.Typed(t.datatypeIri)
    ensures r.Ok? && t.Literal? ==> !r.value.node.tag.Plain?
    ensures r.Ok? && t.Triple? ==> r.value.TupleValue? && |r.value.items| == 3
  {
    match t
    case NamedNode(v) => Ok(R.NodeValue(R.URIRef(v)))
    case BlankNode(v) => Ok(R.NodeValue(R.BNode(v)))
    case Literal(v, language, datatypeIri) =>
      if language.Some? && language.value != [] then Ok(R.NodeValue(R.Literal(v, R.Lang(language.value))))
      else Ok(R.NodeValue(R.Literal(v, R.Typed(datatypeIri))))
    case Triple(s, p, o) =>
      var s' :- FromOxTerm(s);
      var p' :- FromOxTerm(p);
      var o' :- FromOxTerm(o);
      Ok(R.TupleValue([Some(s'), Some(p'), Some(o')]))
    case DefaultGraph => Err(ValueError)
  }

  /** `from_ox(term)` */
  function FromOx(term: Option<Ox.Term>): (r: Result<Option<R.Value>>)
    ensures term.None? <==> r == Ok(None)
    ensures term.Some? ==> (r.Ok? <==> FromOxTerm(term.value).Ok?)
  {
    match term
    case None => Ok(None)
    case Some(t) =>
      var v :- FromOxTerm(t);
      Ok(Some(v))
  }

  /** The rdflib nodes `from_ox(to_ox(n))` gives back unchanged. */
  predicate RoundTrips(n: R.Node) {
    match n
    case URIRef(iri) => iri != R.DATASET_DEFAULT_GRAPH_ID
    case BNode(_) => true
    case Literal(_, tag) => !tag.Plain?
    case Variable(_) => false
  }

  /** The term `to_ox` gives a node, when it gives one. */
  function TermOf(r: Result<Option<Ox.Converted>>): Option<Ox.Term> {
    if r.Ok? then Ox.AsTerm(r.value) else None
  }

  /**
    IRIs other than the default-graph identifier, blank nodes, language-tagged
    literals and datatyped literals survive the trip to Oxigraph and back; an IRI
    keeps its string and a blank node its label on the way.
   */
  lemma NodeRoundTrip(n: R.Node, context: Option<R.Graph>)
    requires RoundTrips(n)
    ensures TermOf(ToOx(Some(R.NodeValue(n)), context)).Some?
    ensures FromOx(TermOf(ToOx(Some(R.NodeValue(n)), context))) == Ok(Some(R.NodeValue(n)))
    ensures n.URIRef? ==> TermOf(ToOx(Some(R.NodeValue(n)), context)) == Some(Ox.NamedNode(n.iri))
    ensures n.BNode? ==> TermOf(ToOx(Some(R.NodeValue(n)), context)) == Some(Ox.BlankNode(n.id))
  {
  }

  /** A literal with neither language nor datatype comes back typed xsd:string. */
  lemma PlainLiteralComesBackAsString(lexical: string)
    ensures TermOf(ToOx(Some(R.NodeValue(R.Literal(lexical, R.Plain))), None)) == Some(Ox.Literal(lexical, None, Ox.XSD_STRING))
    ensures FromOx(TermOf(ToOx(Some(R.NodeValue(R.Literal(lexical, R.Plain))), None)))
            == Ok(Some(R.NodeValue(R.Literal(lexical, R.Typed(Ox.XSD_STRING)))))
  {
  }

  /**
    The default-graph identifier becomes Oxigraph's default graph, as a node and as
    the identifier of a graph, and that term has no rdflib counterpart in `from_ox`.
   */
  lemma DefaultIdentifierToDefaultGraph(context: Option<R.Graph>)
    ensures ToOx(Some(R.NodeValue(R.URIRef(R.DATASET_DEFAULT_GRAPH_ID))), context) == Ok(Some(Ox.TermResult(Ox.DefaultGraph)))
    ensures ToOx(Some(R.GraphValue(R.Graph(R.URIRef(R.DATASET_DEFAULT_GRAPH_ID)))), context) == Ok(Some(Ox.TermResult(Ox.DefaultGraph)))
    ensures FromOx(Some(Ox.DefaultGraph)) == Err(ValueError)
  {
  }

  /**
    In a pattern the default-graph identifier is an ordinary IRI unless it comes as
    the identifier of a graph.
   */
  lemma PatternKeepsDefaultIri()
    ensures ToOxTermPattern(Some(R.NodeValue(R.URIRef(R.DATASET_DEFAULT_GRAPH_ID)))) == Ok(Some(Ox.NamedNode(R.DATASET_DEFAULT_GRAPH_ID)))
    ensures ToOxTermPattern(Some(R.GraphValue(R.Graph(R.URIRef(R.DATASET_DEFAULT_GRAPH_ID))))) == Ok(Some(Ox.DefaultGraph))
  {
  }

  /** Every pattern position agrees with `to_ox` on the nodes whose conversion does not depend on the default-graph check. */
  lemma PatternAgreesWithToOx(v: R.Value)
    requires !v.TupleValue?
    requires v.NodeValue? ==> v.node != R.URIRef(R.DATASET_DEFAULT_GRAPH_ID)
    ensures ToOxTermPattern(Some(v)).Ok? <==> ToOx(Some(v), None).Ok?
    ensures ToOxTermPattern(Some(v)).Ok? ==> ToOxTermPattern(Some(v)).value == TermOf(ToOx(Some(v), None))
  {
  }

  /** The all-wildcard triple pattern without a context is the all-wildcard quad pattern. */
  lemma WildcardPattern()
    ensures ToOxQuadPattern((None, None, None), None) == Ok(Ox.Wildcard)
  {
  }

  /** A single pattern position converts exactly when it holds no variable and no tuple. */
  lemma PatternPositionConverts(v: Option<R.Value>)
    ensures ToOxTermPattern(v).Ok? <==> PatternPosition(v)
  {
  }

  /**
    A triple pattern, bound in any of its positions, converts exactly when no position
    and no context holds a variable or a tuple; `g.objects(s, p)` and the other partly
    bound lookups thus reach the backend.
   */
  lemma PatternConverts(triple: R.TriplePattern, context: Option<R.Graph>)
    ensures ToOxQuadPattern(triple, context).Ok? <==>
              && PatternPosition(triple.0) && PatternPosition(triple.1) && PatternPosition(triple.2)
              && PatternPosition(GraphArg(context))
  {
    PatternPositionConverts(triple.0);
    PatternPositionConverts(triple.1);
    PatternPositionConverts(triple.2);
    PatternPositionConverts(GraphArg(context));
  }

  /**
    A 3-tuple becomes the quad of its converted nodes in the converted context (the
    default graph when there is none); it converts exactly when its subject is an IRI
    or blank node, its predicate an IRI and its object a node, none of them the
    default-graph identifier, and the context names a graph.
   */
  lemma TripleToQuad(t: R.Triple, context: Option<R.Graph>)
    ensures var r := ToOx(Some(R.TripleValue(t)), context);
            r.Ok? <==> && ConvertsTo(t.0, Ox.SubjectKind) && ConvertsTo(t.1, Ox.PredicateKind)
                       && ConvertsTo(t.2, Ox.ObjectKind)
                       && (context.Some? ==> ConvertsTo(context.value.identifier, Ox.GraphNameKind))
    ensures var r := ToOx(Some(R.TripleValue(t)), context);
            r.Ok? ==> r.value == Some(Ox.QuadResult(Ox.Quad(
                          NodeToOx(t.0).value, NodeToOx(t.1).value, NodeToOx(t.2).value,
                          if context.None? then Ox.DefaultGraph else NodeToOx(context.value.identifier).value)))
  {
    assert R.TripleValue(t).items[0] == Some(R.NodeValue(t.0));
    assert R.TripleValue(t).items[1] == Some(R.NodeValue(t.1));
    assert R.TripleValue(t).items[2] == Some(R.NodeValue(t.2));
    NodeValueToOx(t.0);
    NodeValueToOx(t.1);
    NodeValueToOx(t.2);
  }

  /** On a node, `to_ox` is the node conversion. */
  lemma NodeValueToOx(n: R.Node)
    ensures ToOx(Some(R.NodeValue(n)), None) == (if NodeToOx(n).Ok? then Ok(Some(Ox.TermResult(NodeToOx(n).value))) else Err(NodeToOx(n).error))
  {
  }

  /** A node converts to a term of the kind a quad position wants. */
  predicate ConvertsTo(n: R.Node, kind: Ox.Term -> bool) {
    NodeToOx(n).Ok? && kind(NodeToOx(n).value)
  }

  /** A 4-tuple is placed in its own fourth item: the context plays no part. */
  lemma QuadIgnoresContext(q: R.QuadTuple, c1: Option<R.Graph>, c2: Option<R.Graph>)
    ensures ToOx(Some(R.QuadValue(q)), c1) == ToOx(Some(R.QuadValue(q)), c2)
    ensures ToOx(Some(R.QuadValue(q)), c1) == ToOx(Some(R.TripleValue((q.0, q.1, q.2))), Some(q.3))
  {
    assert R.QuadValue(q).items[0] == R.TripleValue((q.0, q.1, q.2)).items[0];
    assert R.QuadValue(q).items[1] == R.TripleValue((q.0, q.1, q.2)).items[1];
    assert R.QuadValue(q).items[2] == R.TripleValue((q.0, q.1, q.2)).items[2];
  }

  /** A graph whose identifier is an IRI or a blank node comes back as the same graph. */
  lemma GraphRoundTrip(g: R.Graph, context: Option<R.Graph>)
    requires g.identifier.URIRef? || g.identifier.BNode?
    ensures TermOf(ToOx(Some(R.GraphValue(g)), context)).Some?
    ensures FromOxGraphName(TermOf(ToOx(Some(R.GraphValue(g)), context)).value) == Ok(g)
  {
  }

  /**
    A backend graph name comes back as a graph that converts to the same name,
    except a named graph called by the default-graph identifier, which becomes the
    default graph.
   */
  lemma GraphNameRoundTrip(name: Ox.Term)
    requires Ox.GraphNameKind(name)
    ensures ToOx(Some(R.GraphValue(FromOxGraphName(name).value)), None)
            == Ok(Some(Ox.TermResult(if name == Ox.NamedNode(R.DATASET_DEFAULT_GRAPH_ID) then Ox.DefaultGraph else name)))
  {
  }

  /** `from_ox` on a quoted triple converts each component, and fails when one of them does. */
  lemma FromOxTripleComponents(s: Ox.Term, p: Ox.Term, o: Ox.Term)
    ensures FromOxTerm(Ox.Triple(s, p, o)).Ok? <==> FromOxTerm(s).Ok? && FromOxTerm(p).Ok? && FromOxTerm(o).Ok?
    ensures FromOxTerm(Ox.Triple(s, p, o)).Ok? ==>
              FromOxTerm(Ox.Triple(s, p, o)).value
              == R.TupleValue([Some(FromOxTerm(s).value), Some(FromOxTerm(p).value), Some(FromOxTerm(o).value)])
  {
  }

  /** The triple of a quad `to_ox` builds reads back as the nodes it was built from. */
  lemma {:induction false} AddedTripleReadsBack(t: R.Triple, context: Option<R.Graph>)
    requires RoundTrips(t.0) && RoundTrips(t.1) && RoundTrips(t.2)
    requires t.0.URIRef? || t.0.BNode?
    requires t.1.URIRef?
    requires context.Some? ==> context.value.identifier.URIRef? || context.value.identifier.BNode?
    ensures var r := ToOx(Some(R.TripleValue(t)), context);
            && r.Ok? && r.value.Some? && r.value.value.QuadResult?
            && FromOx(Some(r.value.value.quad.subject)) == Ok(Some(R.NodeValue(t.0)))
            && FromOx(Some(r.value.value.quad.pred)) == Ok(Some(R.NodeValue(t.1)))
            && FromOx(Some(r.value.value.quad.obj)) == Ok(Some(R.NodeValue(t.2)))
            && (context.Some? ==> FromOxGraphName(r.value.value.quad.graphName) == Ok(context.value))
            && (context.None? ==> r.value.value.quad.graphName == Ox.DefaultGraph)
  {
    TripleToQuad(t, context);
    NodeRoundTrip(t.0, None);
    NodeRoundTrip(t.1, None);
    NodeRoundTrip(t.2, None);
    if context.Some? {
      GraphRoundTrip(context.value, None);
    }
  }
}
