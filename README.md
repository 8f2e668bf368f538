# oxrdflib core, modelled in Dafny

oxrdflib lets rdflib graphs be stored in, and queried through, a pyoxigraph store.
This project models its two core files:

- `oxrdflib/_converter.py` converts between rdflib nodes, triples, quads and graph handles and pyoxigraph terms, quads and quad patterns. It is modelled as pure functions in `converter.dfy`.
- `oxrdflib/store.py` holds `OxigraphStore`, rdflib's `Store` interface over a pyoxigraph store. It is modelled as a class in `store.dfy`.
  - The class's fields are the optional backend store and the two registry dictionaries.
  - Its methods change those fields under `modifies` frames.
  - Each method's contract ties the new backend content to a specification function on quad sets (`TriplesOf`, `RemovedFrom`, `LenOf`, `ContextsOf`).

The supporting modules:

- `wrappers.dfy`: `Option`, `Result` and `Outcome`. The Python exceptions are the `Error` values `ValueError`, `TypeError`, `NotImplementedError` and `EngineError`.
- `pydict.dfy`: a Python `dict` as a map plus its insertion order of keys. `Put`, `Delete`, `Items` and `Merge` model `d[k] = v`, `del d[k]`, `d.items()` and `dict(a, **b)`.
- `rdflib.dfy`: the rdflib side.
  - Node kinds `URIRef`, `BNode`, `Literal` (plain, language-tagged or typed) and `Variable`.
  - Graph handles, triples, quads and patterns.
  - `DATASET_DEFAULT_GRAPH_ID` (`urn:x-rdflib:default`).
- `oxigraph.dfy`: the pyoxigraph side.
  - Term kinds, including `DefaultGraph` and RDF-star `Triple`.
  - `ox.Literal` and `ox.Quad` with their type checks.
  - Quad patterns and `quads_for_pattern`.
  - Datasets.
  - The query and update evaluators, which are function parameters.
- `backend.dfy`: `pyoxigraph.Store` as a class holding a set of quads and a set of named graphs.
- `registry.dfy`: the prefix/namespace dictionaries of `bind`. The cascade of `_delete_from_prefix` and `_delete_from_namespace` is modelled as mutually recursive functions, and the registry is proved to remain a bijection.
- `sparql_text.dfy`: the text `query` and `update` send to the engine. That text is made of the `PREFIX` prologue, the caller's text and the `VALUES` row of initial bindings.
- `store_lemmas.dfy`: properties of the store's specification functions. It covers add-then-find, remove in one graph or in all, `len` counting distinct triples once, and `contexts`.
- `scenarios.dfy`: short runs of a fresh `OxigraphStore`, mirroring the adapter's test suite.

Behaviour the model follows as the code has it:

- `from_ox_graph_name` returns the default graph as a graph handle whose identifier is `urn:x-rdflib:default`. It does not return `None`.
- Every conversion failure and every unexpected query result is a `ValueError`, as `_converter.py` and `store.py` raise them.
- Pyoxigraph's constructor type checks raise `TypeError`.
- `update` refuses a `queryGraph` unless it equals the default-graph identifier. The comparison is rdflib's type-strict one: the plain string `"urn:x-rdflib:default"` is refused, and only the `URIRef` passes.

## Model

| member | source | states |
|---|---|---|
| Converter.LiteralToOx | oxrdflib/_converter.py:24-29 | A literal always converts. Its lexical form is kept and its language is carried over. Its datatype is the rdflib datatype, rdf:langString for a language-tagged literal, or xsd:string for a plain literal. |
| Converter.NodeToOx | oxrdflib/_converter.py:18-29 | A node fails to convert exactly when it is a variable, and then with ValueError. The result is the default graph exactly when the node is the default-graph IRI. |
| Converter.ContextToOx | oxrdflib/_converter.py:38 | A missing context is None. A present context fails iff its identifier is a variable, and then with ValueError. Otherwise it becomes the term to_ox gives its identifier. |
| Converter.ToOx | oxrdflib/_converter.py:12-47 | None maps to None. A node fails iff it is a variable, and a graph fails iff its identifier is one. A tuple of any length other than 3 or 4 is a ValueError. A tuple that converts gives a well-kinded quad. Errors are ValueError, or TypeError from the quad constructor. |
| Converter.ToOxTermPattern | oxrdflib/_converter.py:62-79 | A wildcard stays a wildcard and a tuple is a ValueError. Only a graph handle on the default-graph identifier yields the default graph. |
| Converter.ToOxQuadPattern | oxrdflib/_converter.py:50-59 | The pattern fails iff one of its three positions or its context fails to_ox_term_pattern, and then with ValueError. Otherwise it is the quad pattern of the four converted positions, each a wildcard exactly when the rdflib position or the context is None. |
| Converter.PatternPositionConverts | oxrdflib/_converter.py:62-79 | A position converts exactly when it is a wildcard, a node other than a variable, or a graph whose identifier is not a variable. |
| Converter.PatternConverts | oxrdflib/_converter.py:50-79 | A pattern bound in any subset of its positions converts exactly when no position and no context holds a variable or a tuple. |
| Converter.FromOxGraphName | oxrdflib/_converter.py:82-92 | The result is Ok iff the term is a named node, a blank node or the default graph. It is an IRI or blank-node graph, and any other term is a ValueError. |
| Converter.FromOxTerm | oxrdflib/_converter.py:100-110 | Every well-formed object term converts and the default graph does not. A literal keeps its lexical form. Its tag is its language when that is present and non-empty, and otherwise its datatype. A quoted triple becomes a 3-tuple. |
| Converter.FromOx | oxrdflib/_converter.py:95-110 | None maps to None. Otherwise the result succeeds exactly when the term converts. |
| Converter.NodeRoundTrip | oxrdflib/_converter.py:20-29 | Two kinds of node come back unchanged from from_ox(to_ox(n)). The first is an IRI other than the default-graph identifier, which keeps its string. The second is a blank node, which keeps its label. Language-tagged and datatyped literals come back unchanged too. |
| Converter.PlainLiteralComesBackAsString | oxrdflib/_converter.py:104-107 | A plain literal comes back as the same lexical form typed xsd:string. |
| Converter.DefaultIdentifierToDefaultGraph | oxrdflib/_converter.py:18-19 | The default-graph IRI becomes DefaultGraph, both as a node and as a graph identifier. from_ox rejects DefaultGraph. |
| Converter.PatternKeepsDefaultIri | oxrdflib/_converter.py:67-78 | In a pattern, the default-graph IRI is an ordinary named node. As a graph handle it is the default graph. |
| Converter.PatternAgreesWithToOx | oxrdflib/_converter.py:62-79 | On every non-tuple value except the bare default-graph IRI, the pattern conversion and to_ox succeed together and give the same term. |
| Converter.WildcardPattern | oxrdflib/_converter.py:50-59 | (None, None, None) without a context is the all-wildcard quad pattern. |
| Converter.TripleToQuad | oxrdflib/_converter.py:32-39 | A 3-tuple converts exactly when four things hold. The subject converts to a subject term, the predicate to a named node and the object to an object term. The context, when given, converts to a graph name. The quad is then made of the converted nodes, in the converted context or the default graph. |
| Converter.QuadIgnoresContext | oxrdflib/_converter.py:40-46 | A 4-tuple ignores the context argument. It converts like its first three items placed in its fourth. |
| Converter.GraphRoundTrip | oxrdflib/_converter.py:82-92 | A graph on an IRI or a blank node comes back from from_ox_graph_name(to_ox(g)) as the same graph. |
| Converter.GraphNameRoundTrip | oxrdflib/_converter.py:86-91 | A backend graph name converts back to itself. The one exception is a named graph called urn:x-rdflib:default, which collapses to the default graph. |
| Converter.FromOxTripleComponents | oxrdflib/_converter.py:108-109 | A quoted triple converts iff each component converts, and then into the tuple of the converted components. |
| Converter.AddedTripleReadsBack | oxrdflib/_converter.py:32-39 | The quad that to_ox builds for a storable triple reads back through from_ox as the original nodes. Its graph name comes back as the original context, or is the default graph when there is no context. |
| Oxigraph.NewLiteral | oxrdflib/_converter.py:25-29 | The datatype is rdf:langString when a language is given, otherwise the given datatype or xsd:string. A language together with another datatype is refused. |
| Oxigraph.NewQuad | oxrdflib/_converter.py:34-46 | The quad succeeds exactly when each position holds a term of its kind, and then it is the quad of those terms; otherwise it gives TypeError. A missing graph name is the default graph. |
| Oxigraph.Select | oxrdflib/store.py:94 | quads_for_pattern gives exactly the quads that match the pattern. A term of the wrong kind in a position is a TypeError. |
| PyDict.Merge | oxrdflib/store.py:143 | dict(a, **b) has b's entries over a's and stays duplicate-free. Its keys are a's keys in their order, followed by b's keys that a lacks, in b's order. |
| PyDict.UpdateWith | oxrdflib/store.py:143 | Writing entries one by one appends each key not yet present, at its first write, and keeps every existing key in place. |
| PyDict.AppendNewIsNewKeys | oxrdflib/store.py:143 | The keys added by a run of writes are the order so far followed by the new keys in the order they are first written. |
| PyDict.Items | oxrdflib/store.py:229 | items() lists exactly the entries of the dictionary in key order, one per key. |
| PyDict.Delete | oxrdflib/store.py:212 | del d[k] removes exactly the key k and keeps the dictionary duplicate-free. The remaining keys keep their order, with k cut out of its position. Python raises KeyError on an absent key; the registry code at store.py:208-220 only deletes keys it has just looked up, so that case never arises, and the model returns the dictionary unchanged there. |
| PyDict.RemoveKeyCutsOut | oxrdflib/store.py:212 | In a duplicate-free order, removing a key cuts it out at its position and leaves the keys before and after it as they were. |
| PyDict.Put | oxrdflib/store.py:205-206 | d[k] = v sets the entry. A new key is appended to the order, and an existing key keeps its place. |
| Registry.Empty | oxrdflib/store.py:47-48 | The two empty dictionaries form a bijection. |
| Registry.DeleteFromPrefix | oxrdflib/store.py:208-213 | The prefix and its namespace are gone, and both dictionaries shrink to sub-maps. An unbound prefix changes nothing. The cascade terminates. |
| Registry.DeleteFromNamespace | oxrdflib/store.py:215-220 | The namespace and its prefix are gone, and both dictionaries shrink to sub-maps. An unbound namespace changes nothing. |
| Registry.Bind | oxrdflib/store.py:200-206 | Without override, a bind with either side already bound changes nothing. Otherwise the prefix and the namespace end up bound to each other. |
| Registry.Prefix | oxrdflib/store.py:222-223 | The result is the namespace's prefix, or None if none is bound. |
| Registry.Namespace | oxrdflib/store.py:225-226 | The result is the prefix's namespace, or None if none is bound. |
| Registry.Namespaces | oxrdflib/store.py:228-229 | The result has one entry per bound prefix, with exactly those pairs. |
| Registry.DeleteFromPrefixOnBijection | oxrdflib/store.py:208-213 | On a bijection, the cascade deletes exactly the prefix and its namespace, and leaves a bijection. |
| Registry.DeleteFromNamespaceOnBijection | oxrdflib/store.py:215-220 | On a bijection, the cascade deletes exactly the namespace and its prefix, and leaves a bijection. |
| Registry.PutPairKeepsInverse | oxrdflib/store.py:205-206 | Binding an unbound prefix to an unbound namespace keeps the two maps inverse. |
| Registry.BindKeepsBijection | oxrdflib/store.py:200-206 | bind keeps the two dictionaries each other's inverse. |
| Registry.RebindMaps | oxrdflib/store.py:203-206 | On the raw maps, a rebind drops the old partners and leaves every other entry where it was. |
| Registry.BindUnbindsOldPartners | oxrdflib/store.py:200-220 | After a bind takes effect, the prefix's old namespace and the namespace's old prefix are unbound, and all other entries are unchanged. |
| Registry.LookupsAgree | oxrdflib/store.py:222-226 | On a bijection, namespace(p) == n iff prefix(n) == p. |
| SparqlText.PrefixDecl | oxrdflib/store.py:144 | A declaration starts with "PREFIX ", ends with a newline, and has the length of its parts plus 12. Where the prefix and namespace sit is stated by ParseDecl and PrefixDeclParsesBack. |
| SparqlText.ParseDecl | oxrdflib/store.py:144 | Whatever reads back as a prefix and a namespace is exactly the declaration of that prefix, bound to that namespace in angle brackets, and the prefix has no colon. |
| SparqlText.PrefixDeclParsesBack | oxrdflib/store.py:144 | The declaration of a colon-free prefix reads back as that prefix and its namespace, so the line binds the prefix to the namespace. |
| SparqlText.Prologue | oxrdflib/store.py:144 | A definition without a contract: the declarations one after the other. PrologueLines and PrefixDeclParsesBack give it meaning. |
| SparqlText.JoinThenSplit | oxrdflib/store.py:147-148 | Words without spaces, joined with single spaces, split back into the same words. |
| SparqlText.ValuesClauseAligned | oxrdflib/store.py:146-149 | When names and rendered values have no spaces, the VALUES clause splits back into one variable and one value per binding. The i-th variable is ?-prefixed name i and the i-th value is the rendering of value i, so each variable lines up with its own value. |
| SparqlText.InitNs | oxrdflib/store.py:143 | The caller's prefixes override the registry's. |
| SparqlText.Declarations | oxrdflib/store.py:143-144 | A prefix is declared with the caller's namespace, or else with the registry's. Each prefix is declared once. |
| SparqlText.PrologueLines | oxrdflib/store.py:144 | The prologue has exactly one line per declared prefix. |
| SparqlText.ValuesClause | oxrdflib/store.py:146-149 | A definition without a contract: the one-row VALUES clause. ValuesClauseAligned and SingleBinding give it meaning. |
| SparqlText.QueryText | oxrdflib/store.py:143-149 | A definition without a contract: the prologue, the query and the VALUES clause. NoBindingsNoValues and BindingsGiveValues give it meaning. |
| SparqlText.UpdateText | oxrdflib/store.py:178-179 | A definition without a contract: the prologue followed by the update. Declarations, PrologueLines and PrefixDeclParsesBack give the prologue its meaning. |
| SparqlText.NoBindingsNoValues | oxrdflib/store.py:145-149 | Without initial bindings, the query text is the prologue followed by the query, with no VALUES clause. |
| SparqlText.BindingsGiveValues | oxrdflib/store.py:145-149 | With initial bindings, the query text ends with the VALUES row of all of them. |
| SparqlText.SingleBinding | oxrdflib/store.py:146-149 | One binding renders as ( ?x ) { (v) }. |
| Backend.GraphOf | oxrdflib/store.py:80 | Inserting a quad registers its graph name, except for the default graph. |
| Backend.Store.constructor | oxrdflib/store.py:54 | The new store holds the given content. |
| Backend.Store.Add | oxrdflib/store.py:80 | The quad is added and its named graph is registered. |
| Backend.Store.Extend | oxrdflib/store.py:84 | All quads are added and their named graphs are registered. |
| Backend.Store.Remove | oxrdflib/store.py:95 | The quad is removed and the named graphs stay. |
| Backend.Store.QuadsForPattern | oxrdflib/store.py:94 | A pattern with bad kinds is a TypeError. Otherwise the result holds a quad iff the store holds it and it matches the pattern. The content is unchanged. |
| Backend.Store.Query | oxrdflib/store.py:116-123 | A definition without a contract: the query engine applied to the backend's content, the text, the union flag and the default graph. Store.OxigraphStore.Query and Store.OxigraphStore.Len state what is done with it. |
| Backend.Store.AddGraph | oxrdflib/store.py:195 | A named or blank graph is registered. The default graph is a no-op. Any other term is a TypeError. |
| Backend.Store.RemoveGraph | oxrdflib/store.py:198 | The graph's quads and its registration are dropped. The default graph loses only its quads. |
| Backend.Store.Update | oxrdflib/store.py:184 | The content becomes the engine's result, or stays unchanged on an engine error. |
| Store.QuadFor | oxrdflib/store.py:80 | The inserted quad is well kinded and is what to_ox makes of the triple in the context. It fails exactly when to_ox fails. |
| Store.ConvertAll | oxrdflib/store.py:84 | On success, every 4-tuple is converted in order. On error, the error is that of the first tuple that fails, and all earlier ones convert. |
| Store.MatchOf | oxrdflib/store.py:105-108 | A definition without a contract: from_ox of the quad's three terms and from_ox_graph_name of its graph. Converter.AddedTripleReadsBack and StoreLemmas.AddedTripleIsFound give it meaning. |
| Store.TriplesOf | oxrdflib/store.py:98-112 | A pattern that does not convert, or that the backend refuses, yields nothing. Otherwise every stored quad matching the pattern is yielded, and every item yielded comes from a stored quad that matches. |
| Store.RemovedFrom | oxrdflib/store.py:89-96 | The result is an error iff the pattern does not convert or has bad kinds. Otherwise exactly the matching quads are removed and no others. |
| Store.LenOf | oxrdflib/store.py:114-124 | Without a context, the result is the number of distinct triples over all graphs. With a context, it is the count in the converted graph. It fails iff the identifier does not convert to a graph name: a variable gives ValueError, and any other identifier is taken to give TypeError, the kind pyoxigraph's argument check raises. |
| Store.ContextsOf | oxrdflib/store.py:126-131 | Without a triple, the result is exactly the registered named graphs. With a triple, it fails iff the triple's pattern does not convert or has bad kinds, with ValueError or TypeError. Otherwise it is exactly the graphs of the quads that match it. |
| Store.Dispatch | oxrdflib/store.py:155-167 | A backend result fails exactly when it is not a boolean, solutions or triples, and then with ValueError. Otherwise it is carried over unchanged: the rdflib result is built from exactly the backend result. |
| Store.DispatchOfBackendResult | oxrdflib/store.py:155-167 | Every rdflib query result is what dispatch makes of the backend result it is built from, so no result kind is lost or confused with another. |
| Store.DefaultGraphArg | oxrdflib/store.py:153 | A plain string gives no default graph. A node gives its converted term, and only a variable fails. |
| Store.OxigraphStore.constructor | oxrdflib/store.py:39-49 | The store is kept as given, and the registry starts empty and is a bijection. |
| Store.OxigraphStore.Open | oxrdflib/store.py:51-55 | Once a backend exists the result is ValueError. Otherwise the result is VALID_STORE and the backend holds the configuration directory's content. |
| Store.OxigraphStore.Inner | oxrdflib/store.py:66-70 | An empty in-memory backend is created on first use, and the same one is reused afterwards. |
| Store.OxigraphStore.Add | oxrdflib/store.py:72-81 | A quoted triple gives ValueError. Otherwise the result is Pass iff the triple converts, and then exactly its quad is added and its graph registered. A failed conversion raises its own error and leaves the quads and graphs unchanged, but the backend is created anyway, so a later open raises ValueError. |
| Store.OxigraphStore.AddN | oxrdflib/store.py:83-87 | On success, all converted quads are added and exactly their named graphs are registered. If any tuple fails, nothing is added and the first error is raised. |
| Store.OxigraphStore.Remove | oxrdflib/store.py:89-96 | The loop removes exactly the quads RemovedFrom removes, the result fails exactly when RemovedFrom does, and the named graphs are unchanged. |
| Store.OxigraphStore.Triples | oxrdflib/store.py:98-112 | The result is TriplesOf the backend's quads, and the content is unchanged. |
| Store.OxigraphStore.Len | oxrdflib/store.py:114-124 | The result is LenOf the backend's quads, and the content is unchanged. |
| Store.OxigraphStore.Contexts | oxrdflib/store.py:126-131 | The result is ContextsOf the backend's content, and the content is unchanged. |
| Store.OxigraphStore.Query | oxrdflib/store.py:133-168 | Parsed queries or extra keyword arguments give NotImplementedError before the backend is touched. Otherwise the engine evaluates the prefixed text, with the union or the given default graph, and the result is dispatched. The content is unchanged. |
| Store.OxigraphStore.Update | oxrdflib/store.py:170-184 | A parsed update gives TypeError. Initial bindings, or any queryGraph but the default-graph identifier, give NotImplementedError and change nothing. Otherwise the backend content becomes the engine's result for the prefixed text. |
| Store.OxigraphStore.ApplyUpdate | oxrdflib/store.py:184 | The backend, created on first use, takes the engine's result for the text as its content, or keeps its content and the engine's error. The registry is unchanged. |
| Store.OxigraphStore.AddGraph | oxrdflib/store.py:194-195 | The result is Pass iff the identifier names a graph. A named graph is registered and the quads are unchanged. |
| Store.OxigraphStore.RemoveGraph | oxrdflib/store.py:197-198 | The result is Pass iff the identifier names a graph. The graph's quads and its registration are dropped. |
| Store.OxigraphStore.DeleteFromPrefix | oxrdflib/store.py:208-213 | The registry becomes Registry.DeleteFromPrefix of the old one. |
| Store.OxigraphStore.DeleteFromNamespace | oxrdflib/store.py:215-220 | The registry becomes Registry.DeleteFromNamespace of the old one. |
| Store.OxigraphStore.Bind | oxrdflib/store.py:200-206 | The registry becomes Registry.Bind of the old one and remains a bijection. |
| Store.OxigraphStore.Prefix | oxrdflib/store.py:222-223 | The result is the registry's prefix lookup. |
| Store.OxigraphStore.Namespace | oxrdflib/store.py:225-226 | The result is the registry's namespace lookup. |
| Store.OxigraphStore.Namespaces | oxrdflib/store.py:228-229 | The result lists exactly the pairs that namespace() returns. |
| StoreLemmas.PatternOfTriple | oxrdflib/store.py:94 | The pattern of a storable triple pins exactly the quad that add inserts. With no context, its graph position is a wildcard. |
| StoreLemmas.AddedTripleIsFound | oxrdflib/store.py:98-112 | An added triple is found in its graph, in the union, and by the all-wildcard pattern. |
| StoreLemmas.LiteralSubjectYieldsNothing | oxrdflib/store.py:103-112 | A literal subject makes triples yield nothing instead of raising. |
| StoreLemmas.TriplesAreWhatRemoveRemoves | oxrdflib/store.py:89-112 | triples(pattern, context) yields exactly the quads remove(pattern, context) would take away, and nothing when remove raises. |
| StoreLemmas.NoTriplesAfterRemove | oxrdflib/store.py:89-112 | After remove(pattern, context), triples(pattern, context) yields nothing. |
| StoreLemmas.GraphTriplesInUnion | oxrdflib/store.py:98-112 | Whatever triples yields in one graph, it also yields over all graphs. |
| StoreLemmas.RemoveAnyEmpties | oxrdflib/store.py:89-96 | remove((None, None, None)) empties the store. |
| StoreLemmas.RemoveTripleEverywhere | oxrdflib/store.py:89-96 | remove(triple) without a context removes that triple from every graph and keeps every quad that states another triple. |
| StoreLemmas.RemoveInOneGraph | oxrdflib/store.py:89-96 | remove(triple, g) removes the quad of g and keeps the quads of every other graph. |
| StoreLemmas.TriplesAtMostQuads | oxrdflib/store.py:114-124 | There are never more distinct triples than quads. |
| StoreLemmas.LenAtMostQuads | oxrdflib/store.py:114-124 | Whenever len succeeds, in the union or in one graph, it is at most the number of stored quads. |
| StoreLemmas.GraphLenAtMostUnion | oxrdflib/store.py:114-124 | The length of one graph is at most the length of the union. |
| StoreLemmas.SameTripleCountsOnce | oxrdflib/store.py:114-124 | A triple already present in some graph adds nothing to the union length when added to another graph. |
| StoreLemmas.OneTripleThreeGraphs | tests/test_graph_context.py:144-153 | One triple in three graphs has length 1 in the union and 1 in one graph. |
| StoreLemmas.NamedGraphListed | oxrdflib/store.py:127-128 | contexts() lists every registered named graph under its IRI. |
| StoreLemmas.DefaultGraphNotListed | oxrdflib/store.py:127-128 | contexts() does not list the default graph, unless a named graph carries the default-graph identifier. |
| StoreLemmas.ContextsOfAddedTriple | oxrdflib/store.py:129-131 | contexts(triple) lists the graph the triple was added to. |
| Scenarios.LateOpenFails | tests/test_store.py:31-35 | open after an add gives ValueError. |
| Scenarios.EarlyOpenLoads | oxrdflib/store.py:51-55 | open on an unused store gives VALID_STORE, and len counts the directory's triples. |
| Scenarios.RemoveAny | tests/test_graph_context.py:204-208 | One triple added to three graphs has length 1, and length 0 after remove((None, None, None)). |
| Scenarios.EmptyGraphLifecycle | tests/test_dataset.py:69-113 | A graph added empty is listed by contexts(), and no longer once it is removed. |
| Scenarios.EmptiedGraphStaysListed | tests/test_dataset.py:95-105 | A graph whose only triple is removed has length 0 and is still listed. |
| Scenarios.RemoveDefaultGraph | tests/test_dataset.py:115-127 | remove_graph of the default graph takes the length from 1 to 0. |
| Scenarios.Rebind | oxrdflib/store.py:200-220 | Rebinding a prefix gives it the new namespace and leaves the old namespace without a prefix. |
| Scenarios.BindWithoutOverride | oxrdflib/store.py:201-202 | Without override, binding a bound prefix keeps its namespace. |

## Left out

- `close`, `destroy`, `gc`, `commit` and `rollback` are not modelled. They are a deletion of the handle, a directory removal, and no-ops.
- rdflib's `Store.__init__`, and its opening of a store when a configuration is passed, are rdflib code that is not part of this model. The constructor models only the fields the adapter sets.
- `super().add` and `super().remove` are not modelled. These are rdflib's event dispatch to store listeners, so the second loop of `addN` is not modelled either.
- The parser, serializer and typing modules of the package are not part of this model.
- I/O is a parameter.
  - `ox.Store(path)` reads the directory contents from the `disk` map given to `Open`.
  - I/O errors from opening a directory are not modelled.
  - Persistent stores and in-memory stores behave the same in the model.
- The SPARQL query and update evaluators are function parameters: `Oxigraph.QueryEngine` and `Oxigraph.UpdateEngine`. The model does not include SPARQL itself. `__len__` is modelled directly as the number of distinct `TRIPLE(?s, ?p, ?o)` values, rather than by evaluating its query.
- `Node.n3()` rendering of initial bindings is a function parameter.
- SparqlText.ValuesClauseAligned: the alignment of variables and values is stated for binding names and rendered values without spaces. A rendered literal that contains a space is not covered.
- Store.OxigraphStore.Query: the construction of rdflib `Result` and `Graph` objects, and the lazy `from_ox` of each solution row and constructed triple, are not modelled. The result carries the backend's variables, rows and triples.
- Store.OxigraphStore.Triples: the iteration order of `triples`, `contexts` and `quads_for_pattern`, and their duplicates, are not modelled. Results are sets, and each match is paired with its graph directly rather than through a one-item iterator.
- Store.OxigraphStore.Remove: the loop removes from a snapshot of the matching quads. Interleaving removal with a live iterator of the backend is not modelled.
- IRI syntax checks, blank-node label checks, language-tag validation and datatype-specific literal normalisation in pyoxigraph are not modelled. Any string is accepted as an IRI, a blank-node label or a language tag.
- Store.LenOf: a graph identifier that converts to a term other than a graph name (a literal) is assumed to give TypeError. That error comes from pyoxigraph's check of the `default_graph` argument of `query`, and pyoxigraph is not part of this model.
- Namespaces are held as their IRI strings. The difference between looking up a plain `str` and a `URIRef` in the registry is not modelled.
- Store.OxigraphStore.constructor: aliasing between the passed backend and other holders of it is not modelled beyond sharing the same object.
- Store.OxigraphStore.Query: `**kwargs` is modelled as a flag saying whether any were passed.
