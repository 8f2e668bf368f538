/**
  The generic side of the adapter: the terms, graph handles and tuples that rdflib
  hands to its store plug-ins.
 */
module Rdflib {
  import opened Wrappers

  /** rdflib turns an empty language tag or datatype into "none", so present ones are non-empty. */
  type NonEmptyString = s: string | |s| > 0 witness "x"

  /** The identifier rdflib gives the unnamed graph of a dataset. */
  const DATASET_DEFAULT_GRAPH_ID: string := "urn:x-rdflib:default"

  /** What a Literal carries besides its lexical form: nothing, a language tag or a datatype IRI (never both). */
  datatype Tag = Plain | Lang(language: NonEmptyString) | Typed(datatypeIri: NonEmptyString)

  /**
    rdflib's terms. `Variable` stands for the rdflib nodes the adapter does not
    convert (SPARQL variables and the like).
   */
  datatype Node =
    | URIRef(iri: string)
    | BNode(id: string)
    | Literal(lexical: string, tag: Tag)
    | Variable(name: string)

  /** A graph handle; only its identifier matters to the adapter. */
  datatype Graph = Graph(identifier: Node)

  /** Any Python value the converter may be handed: a node, a graph or a tuple whose items may be None. */
  datatype Value =
    | NodeValue(node: Node)
    | GraphValue(graph: Graph)
    | TupleValue(items: seq<Option<Value>>)

  /** `_Triple`, `_Quad` and `_TriplePattern` */
  type Triple = (Node, Node, Node)
  type QuadTuple = (Node, Node, Node, Graph)
  type TriplePattern = (Option<Value>, Option<Value>, Option<Value>)

  function TripleValue(t: Triple): Value {
    TupleValue([Some(NodeValue(t.0)), Some(NodeValue(t.1)), Some(NodeValue(t.2))])
  }

  function QuadValue(q: QuadTuple): Value {
    TupleValue([Some(NodeValue(q.0)), Some(NodeValue(q.1)), Some(NodeValue(q.2)), Some(GraphValue(q.3))])
  }

  /** The three-position pattern that matches exactly one triple. */
  function TripleAsPattern(t: Triple): TriplePattern {
    (Some(NodeValue(t.0)), Some(NodeValue(t.1)), Some(NodeValue(t.2)))
  }
}
