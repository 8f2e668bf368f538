/**
  The SPARQL text OxigraphStore.query and OxigraphStore.update hand to the engine:
  one `PREFIX` line per known prefix, then the caller's text, then (for a query
  with initial bindings) a one-row `VALUES` clause.
 */
module SparqlText {
  import opened Wrappers
  import D = PyDict
  import R = Rdflib
  import Reg = Registry

  /** `f"PREFIX {prefix}: <{namespace}>\n"` */
  function PrefixDecl(prefix: string, namespace: string): (line: string)
    ensures |line| == |prefix| + |namespace| + 12
    ensures line[..7] == "PREFIX " && line[|line| - 1] == '\n'
  {
    "PREFIX " + prefix + ": <" + namespace + ">\n"
  }

  /** The position of the first `c` in `s`, or `|s|` when there is none. */
  function FirstIndex(s: string, c: char): (i: nat)
    ensures i <= |s| && (i < |s| ==> s[i] == c) && c !in s[..i]
    decreases |s|
  {
    if s == [] then 0
    else if s[0] == c then 0
    else
      var i := FirstIndex(s[1..], c) + 1;
      assert s[..i] == [s[0]] + s[1..][..i - 1];
      i
  }

  /**
    Reads a declaration line back: after `PREFIX `, the prefix runs up to the first
    colon, which must be followed by ` <`; the namespace is what is left before the
    closing `>` and the line break.
   */
  function ParseDecl(line: string): (r: Option<(string, string)>)
    ensures r.Some? ==> ':' !in r.value.0 && line == PrefixDecl(r.value.0, r.value.1)
  {
    if |line| >= 12 && line[..7] == "PREFIX " && line[|line| - 2..] == ">\n" then
      var body := line[7..|line| - 2];
      var i := FirstIndex(body, ':');
      if i + 3 <= |body| && body[i..i + 3] == ": <" then
        DeclOfParts(line, body, i);
        Some((body[..i], body[i + 3..]))
      else None
    else None
  }

  /** A line cut into `PREFIX `, a body split by `: <`, and `>` with a line break is the declaration of the two halves. */
  lemma DeclOfParts(line: string, body: string, i: nat)
    requires |line| >= 9 && line[..7] == "PREFIX " && line[|line| - 2..] == ">\n" && body == line[7..|line| - 2]
    requires i + 3 <= |body| && body[i..i + 3] == ": <"
    ensures line == PrefixDecl(body[..i], body[i + 3..])
  {
    assert line == line[..7] + body + line[|line| - 2..];
    assert body == body[..i] + body[i..i + 3] + body[i + 3..];
  }

  /** A declaration of a prefix without a colon reads back as that prefix and its namespace. */
  lemma PrefixDeclParsesBack(prefix: string, namespace: string)
    requires ':' !in prefix
    ensures ParseDecl(PrefixDecl(prefix, namespace)) == Some((prefix, namespace))
  {
    var line := PrefixDecl(prefix, namespace);
    var body := prefix + ": <" + namespace;
    assert line[..7] == "PREFIX " && line[|line| - 2..] == ">\n";
    assert line[7..|line| - 2] == body;
    var i := FirstIndex(body, ':');
    assert body[..|prefix|] == prefix && body[|prefix|] == ':';
    assert i == |prefix|;
    assert body[i..i + 3] == ": <";
    assert body[i + 3..] == namespace;
  }

  /** The `PREFIX` prologue: one declaration line per entry, concatenated. */
  function Prologue(entries: seq<(string, string)>): string
    decreases |entries|
  {
    if entries == [] then "" else PrefixDecl(entries[0].0, entries[0].1) + Prologue(entries[1..])
  }

  /** `" ".join(words)` */
  function JoinSpace(words: seq<string>): string
    decreases |words|
  {
    if words == [] then ""
    else if |words| == 1 then words[0]
    else words[0] + " " + JoinSpace(words[1..])
  }

  /** The names of the bound variables, `?`-prefixed, in the order of the bindings. */
  function Variables<V>(bindings: seq<(string, V)>): (vars: seq<string>)
    ensures |vars| == |bindings|
    ensures forall i :: 0 <= i < |bindings| ==> vars[i] == "?" + bindings[i].0
  {
    seq(|bindings|, i requires 0 <= i < |bindings| => "?" + bindings[i].0)
  }

  /** The rendered values, in the same order as the variables. */
  function Values(bindings: seq<(string, R.Node)>, n3: R.Node -> string): (vals: seq<string>)
    ensures |vals| == |bindings|
    ensures forall i :: 0 <= i < |bindings| ==> vals[i] == n3(bindings[i].1)
  {
    seq(|bindings|, i requires 0 <= i < |bindings| => n3(bindings[i].1))
  }

  /** The `VALUES` clause: a single row binding each variable to its value. */
  function ValuesClause(bindings: seq<(string, R.Node)>, n3: R.Node -> string): string {
    "\nVALUES ( " + JoinSpace(Variables(bindings)) + " ) { (" + JoinSpace(Values(bindings, n3)) + ") }"
  }

  /** `dict(self._namespace_for_prefix, **initNs)`: the registry's prefixes, overridden by the caller's. */
  function InitNs(registry: Reg.Maps, initNs: D.Dict<string, string>): (merged: D.Dict<string, string>)
    requires Reg.Valid(registry) && D.Valid(initNs)
    ensures D.Valid(merged)
    ensures merged.m == registry.namespaceForPrefix.m + initNs.m
  {
    D.Merge(registry.namespaceForPrefix, initNs)
  }

  /** The prologue of declarations a query or update starts with. */
  function Declarations(registry: Reg.Maps, initNs: D.Dict<string, string>): (entries: seq<(string, string)>)
    requires Reg.Valid(registry) && D.Valid(initNs)
    ensures forall p, n :: (p, n) in entries <==>
              (p in initNs.m && initNs.m[p] == n)
              || (p !in initNs.m && Reg.Namespace(registry, p) == Some(n))
    ensures forall i, j :: 0 <= i < j < |entries| ==> entries[i].0 != entries[j].0
  {
    D.Items(InitNs(registry, initNs))
  }

  /** The text `query` sends to the engine. */
  function QueryText(registry: Reg.Maps, initNs: D.Dict<string, string>,
                     initBindings: D.Dict<string, R.Node>, query: string, n3: R.Node -> string): string
    requires Reg.Valid(registry) && D.Valid(initNs) && D.Valid(initBindings)
  {
    Prologue(Declarations(registry, initNs)) + query
      + (if initBindings.keys == [] then "" else ValuesClause(D.Items(initBindings), n3))
  }

  /** The text `update` sends to the engine. */
  function UpdateText(registry: Reg.Maps, initNs: D.Dict<string, string>, update: string): string
    requires Reg.Valid(registry) && D.Valid(initNs)
  {
    Prologue(Declarations(registry, initNs)) + update
  }

  /** `s.split(" ")`: the pieces between single spaces, empty ones included. */
  function SplitSpace(s: string): (parts: seq<string>)
    ensures |parts| >= 1
    decreases |s|
  {
    if s == [] then [""]
    else
      var rest := SplitSpace(s[1..]);
      if s[0] == ' ' then [""] + rest else [[s[0]] + rest[0]] + rest[1..]
  }

  lemma {:induction false} SplitWord(w: string)
    requires ' ' !in w
    ensures SplitSpace(w) == [w]
    decreases |w|
  {
    if w != [] {
      assert ' ' !in w[1..];
      SplitWord(w[1..]);
      assert [w[0]] + w[1..] == w;
    }
  }

  lemma {:induction false} SplitWordSpace(w: string, t: string)
    requires ' ' !in w
    ensures SplitSpace(w + " " + t) == [w] + SplitSpace(t)
    decreases |w|
  {
    if w == [] {
      assert w + " " + t == " " + t;
      assert (" " + t)[1..] == t;
    } else {
      var s := w + " " + t;
      assert s[0] == w[0] && s[1..] == w[1..] + " " + t;
      assert ' ' !in w[1..];
      SplitWordSpace(w[1..], t);
      assert [w[0]] + w[1..] == w;
    }
  }

  /** Splitting a space-joined list of words without spaces gives the list back. */
  lemma {:induction false} JoinThenSplit(words: seq<string>)
    requires |words| >= 1
    requires forall i :: 0 <= i < |words| ==> ' ' !in words[i]
    ensures SplitSpace(JoinSpace(words)) == words
    decreases |words|
  {
    if |words| == 1 {
      SplitWord(words[0]);
    } else {
      SplitWordSpace(words[0], JoinSpace(words[1..]));
      JoinThenSplit(words[1..]);
      assert [words[0]] + words[1..] == words;
    }
  }

  /**
    The `VALUES` row lines its variables and its values up: when no variable name
    and no rendered value holds a space, the i-th variable of the clause is the name
    of the i-th binding and the i-th value its rendered node.
   */
  lemma {:induction false} ValuesClauseAligned(bindings: seq<(string, R.Node)>, n3: R.Node -> string)
    requires |bindings| >= 1
    requires forall i :: 0 <= i < |bindings| ==> ' ' !in bindings[i].0 && ' ' !in n3(bindings[i].1)
    ensures var vars, vals := SplitSpace(JoinSpace(Variables(bindings))), SplitSpace(JoinSpace(Values(bindings, n3)));
            && ValuesClause(bindings, n3) == "\nVALUES ( " + JoinSpace(vars) + " ) { (" + JoinSpace(vals) + ") }"
            && |vars| == |bindings| && |vals| == |bindings|
            && (forall i :: 0 <= i < |bindings| ==> vars[i] == "?" + bindings[i].0 && vals[i] == n3(bindings[i].1))
  {
    var vs, ws := Variables(bindings), Values(bindings, n3);
    forall i | 0 <= i < |vs| ensures ' ' !in vs[i] {
      assert vs[i] == "?" + bindings[i].0;
    }
    JoinThenSplit(vs);
    JoinThenSplit(ws);
  }

  /** Occurrences of the character `c` in `s`. */
  function Count(s: string, c: char): nat
    decreases |s|
  {
    if s == [] then 0 else (if s[0] == c then 1 else 0) + Count(s[1..], c)
  }

  lemma {:induction false} CountAppend(s: string, t: string, c: char)
    ensures Count(s + t, c) == Count(s, c) + Count(t, c)
    decreases |s|
  {
    if s == [] {
      assert s + t == t;
    } else {
      assert (s + t)[0] == s[0];
      assert (s + t)[1..] == s[1..] + t;
      CountAppend(s[1..], t, c);
    }
  }

  lemma {:induction false} CountAbsent(s: string, c: char)
    requires c !in s
    ensures Count(s, c) == 0
    decreases |s|
  {
    if s != [] {
      assert s == [s[0]] + s[1..];
      CountAbsent(s[1..], c);
    }
  }

  /** When no prefix or namespace holds a line break, the prologue is exactly one line per entry. */
  lemma {:induction false} PrologueLines(entries: seq<(string, string)>)
    requires forall i :: 0 <= i < |entries| ==> '\n' !in entries[i].0 && '\n' !in entries[i].1
    ensures Count(Prologue(entries), '\n') == |entries|
    decreases |entries|
  {
    if entries != [] {
      var p, n := entries[0].0, entries[0].1;
      CountAppend("PREFIX " + p + ": <" + n, ">\n", '\n');
      CountAppend("PREFIX " + p + ": <", n, '\n');
      CountAppend("PREFIX " + p, ": <", '\n');
      CountAppend("PREFIX ", p, '\n');
      CountAppend(PrefixDecl(p, n), Prologue(entries[1..]), '\n');
      CountAbsent(p, '\n');
      CountAbsent(n, '\n');
      CountAbsent("PREFIX ", '\n');
      CountAbsent(": <", '\n');
      assert Count(">\n", '\n') == 1 by { CountAbsent(">", '\n'); CountAppend(">", "\n", '\n'); }
      PrologueLines(entries[1..]);
    }
  }

  /** Without initial bindings the query text is the prologue followed by the caller's query, unchanged. */
  lemma NoBindingsNoValues(registry: Reg.Maps, initNs: D.Dict<string, string>,
                           initBindings: D.Dict<string, R.Node>, query: string, n3: R.Node -> string)
    requires Reg.Valid(registry) && D.Valid(initNs) && D.Valid(initBindings)
    requires initBindings.m == map[]
    ensures QueryText(registry, initNs, initBindings, query, n3) == Prologue(Declarations(registry, initNs)) + query
  {
  }

  /** With initial bindings the query text ends with the `VALUES` row of all of them, in their order. */
  lemma BindingsGiveValues(registry: Reg.Maps, initNs: D.Dict<string, string>,
                           initBindings: D.Dict<string, R.Node>, query: string, n3: R.Node -> string)
    requires Reg.Valid(registry) && D.Valid(initNs) && D.Valid(initBindings)
    requires initBindings.m != map[]
    ensures QueryText(registry, initNs, initBindings, query, n3)
            == Prologue(Declarations(registry, initNs)) + query + ValuesClause(D.Items(initBindings), n3)
  {
    var k :| k in initBindings.m;
    assert k in initBindings.keys;
  }

  /** A single binding `?x` to a node renders as `( ?x ) { (v) }`. */
  lemma SingleBinding(name: string, value: R.Node, n3: R.Node -> string)
    ensures ValuesClause([(name, value)], n3) == "\nVALUES ( ?" + name + " ) { (" + n3(value) + ") }"
  {
  }
}
