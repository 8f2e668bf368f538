/**
  The backend side of the adapter: pyoxigraph's terms and quads, the checks its
  constructors make, and the quad patterns its store matches.
 */
module Oxigraph {
  import opened Wrappers

  /** An absolute IRI, as a literal's datatype always is. */
  type Iri = s: string | |s| > 0 witness "x"

  const XSD: string := "http://www.w3.org/2001/XMLSchema#"
  const RDF: string := "http://www.w3.org/1999/02/22-rdf-syntax-ns#"
  const XSD_STRING: Iri := XSD + "string"
  const RDF_LANG_STRING: Iri := RDF + "langString"

  /**
    pyoxigraph's terms. A backend literal always has a datatype: rdf:langString when
    it has a language, xsd:string when it was built without one.
   */
  datatype Term =
    | NamedNode(value: string)
    | BlankNode(value: string)
    | Literal(value: string, language: Option<string>, datatypeIri: Iri)
    | DefaultGraph
    | Triple(subject: Term, pred: Term, obj: Term)

  datatype Quad = Quad(subject: Term, pred: Term, obj: Term, graphName: Term)

  /** What the rdflib-to-Oxigraph conversion can produce: a term or a quad. */
  datatype Converted = TermResult(term: Term) | QuadResult(quad: Quad)

  /** The kinds pyoxigraph accepts in each position of a quad or a pattern. */
  predicate SubjectKind(t: Term) { t.NamedNode? || t.BlankNode? || t.Triple? }
  predicate PredicateKind(t: Term) { t.NamedNode? }
  predicate ObjectKind(t: Term) { !t.DefaultGraph? }
  predicate GraphNameKind(t: Term) { t.NamedNode? || t.BlankNode? || t.DefaultGraph? }

  /** A term pyoxigraph can build: every quoted triple inside it has the right kinds. */
  predicate WellFormed(t: Term) {
    match t
    case Triple(s, p, o) =>
      SubjectKind(s) && PredicateKind(p) && ObjectKind(o) && WellFormed(s) && WellFormed(o)
    case _ => true
  }

  /** A quad pyoxigraph can build. */
  predicate WellKinded(q: Quad) {
    && SubjectKind(q.subject) && WellFormed(q.subject)
    && PredicateKind(q.pred)
    && ObjectKind(q.obj) && WellFormed(q.obj)
    && GraphNameKind(q.graphName)
  }

  /**
    `ox.Literal(value, language=..., datatype=...)`: a language makes the datatype
    rdf:langString, no language and no datatype makes it xsd:string.
   */
  function NewLiteral(value: string, language: Option<string>, datatypeIri: Option<Iri>): (r: Result<Term>)
    ensures r.Ok? ==> r.value.Literal? && r.value.value == value && r.value.language == language
    ensures r.Ok? && language.Some? ==> r.value.datatypeIri == RDF_LANG_STRING
    ensures r.Ok? && language.None? ==> r.value.datatypeIri == (if datatypeIri.Some? then datatypeIri.value else XSD_STRING)
    ensures r.Err? <==> language.Some? && datatypeIri.Some? && datatypeIri.value != RDF_LANG_STRING
  {
    match language
    case Some(l) =>
      if datatypeIri.Some? && datatypeIri.value != RDF_LANG_STRING then Err(ValueError)
      else Ok(Literal(value, language, RDF_LANG_STRING))
    case None =>
      Ok(Literal(value, None, if datatypeIri.Some? then datatypeIri.value else XSD_STRING))
  }

  /** The term inside a converted value, when it is one. */
  function AsTerm(c: Option<Converted>): Option<Term> {
    match c
    case Some(TermResult(t)) => Some(t)
    case _ => None
  }

  /**
    `ox.Quad(s, p, o, g)`: TypeError unless every position holds a term of its kind;
    a missing graph name stands for the default graph.
   */
  function NewQuad(s: Option<Converted>, p: Option<Converted>, o: Option<Converted>, g: Option<Converted>): (r: Result<Quad>)
    ensures r.Ok? ==> WellKinded(r.value)
    ensures r.Ok? ==> (&& s == Some(TermResult(r.value.subject))
                       && p == Some(TermResult(r.value.pred))
                       && o == Some(TermResult(r.value.obj)))
    ensures r.Ok? && g.Some? ==> g == Some(TermResult(r.value.graphName))
    ensures r.Ok? && g.None? ==> r.value.graphName == DefaultGraph
    ensures r.Err? ==> r.error == TypeError
    ensures forall q :: WellKinded(q) && s == Some(TermResult(q.subject)) && p == Some(TermResult(q.pred))
                        && o == Some(TermResult(q.obj))
                        && (g == Some(TermResult(q.graphName)) || (g.None? && q.graphName == DefaultGraph))
                        ==> r == Ok(q)
  {
    var ts, tp, to, tg := AsTerm(s), AsTerm(p), AsTerm(o), AsTerm(g);
    if && ts.Some? && SubjectKind(ts.value) && WellFormed(ts.value)
       && tp.Some? && PredicateKind(tp.value)
       && to.Some? && ObjectKind(to.value) && WellFormed(to.value)
       && (g.None? || (tg.Some? && GraphNameKind(tg.value)))
    then Ok(Quad(ts.value, tp.value, to.value, if g.None? then DefaultGraph else tg.value))
    else Err(TypeError)
  }

  /** A quad pattern: `None` in a position matches anything there. */
  datatype QuadPattern = QuadPattern(subject: Option<Term>, pred: Option<Term>, obj: Option<Term>, graphName: Option<Term>)

  const Wildcard: QuadPattern := QuadPattern(None, None, None, None)

  /** The kinds `quads_for_pattern` accepts; anything else raises TypeError. */
  predicate PatternKinds(pat: QuadPattern) {
    && (pat.subject.Some? ==> SubjectKind(pat.subject.value))
    && (pat.pred.Some? ==> PredicateKind(pat.pred.value))
    && (pat.obj.Some? ==> ObjectKind(pat.obj.value))
    && (pat.graphName.Some? ==> GraphNameKind(pat.graphName.value))
  }

  predicate Slot(p: Option<Term>, t: Term) { p.None? || p.value == t }

  predicate Matches(q: Quad, pat: QuadPattern) {
    Slot(pat.subject, q.subject) && Slot(pat.pred, q.pred)
    && Slot(pat.obj, q.obj) && Slot(pat.graphName, q.graphName)
  }

  /** `store.quads_for_pattern(s, p, o, g)` over the quads `quads`. */
  function Select(quads: set<Quad>, pat: QuadPattern): (r: Result<set<Quad>>)
    ensures r.Err? <==> !PatternKinds(pat)
    ensures r.Err? ==> r.error == TypeError
    ensures r.Ok? ==> forall q :: q in r.value <==> q in quads && Matches(q, pat)
  {
    if PatternKinds(pat) then Ok(set q | q in quads && Matches(q, pat)) else Err(TypeError)
  }

  /** The RDF-star triple a quad states, as `TRIPLE(?s, ?p, ?o)` builds it. */
  function TripleOf(q: Quad): Term {
    Triple(q.subject, q.pred, q.obj)
  }

  /** The distinct triples of the quads whose graph `graph` admits (every graph when `None`). */
  function TriplesIn(quads: set<Quad>, graph: Option<Term>): set<Term> {
    set q | q in quads && Slot(graph, q.graphName) :: TripleOf(q)
  }

  /** A store's content: its quads and the named graphs it knows of. */
  datatype Dataset = Dataset(quads: set<Quad>, namedGraphs: set<Term>)

  /**
    What Oxigraph keeps true of a store: quads are well kinded, every named graph
    that holds a quad is registered, and registered graphs are named.
   */
  predicate ValidDataset(d: Dataset) {
    && (forall q :: q in d.quads ==> WellKinded(q))
    && (forall q :: q in d.quads && !q.graphName.DefaultGraph? ==> q.graphName in d.namedGraphs)
    && (forall g :: g in d.namedGraphs ==> g.NamedNode? || g.BlankNode?)
  }

  /** The content of a store on disk or produced by an update: always a valid dataset. */
  type Content = d: Dataset | ValidDataset(d) witness Dataset({}, {})

  /** The three result shapes of `store.query`, and any other value. */
  datatype QueryResults =
    | QueryBoolean(answer: bool)
    | QuerySolutions(variables: seq<string>, solutions: seq<seq<Option<Term>>>)
    | QueryTriples(triples: seq<Term>)
    | OtherResult

  /**
    The SPARQL query evaluator: the dataset, the query text, whether the default
    graph is the union of all graphs, and the graph to use as the default graph.
   */
  type QueryEngine = (Dataset, string, bool, Option<Term>) -> Result<QueryResults>

  /** The SPARQL update evaluator: the dataset and the update text give the new dataset. */
  type UpdateEngine = (Dataset, string) -> Result<Content>
}
