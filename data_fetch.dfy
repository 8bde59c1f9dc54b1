/**
 * src/imaging_plaza_search/data_fetch.py, `get_data_from_graphdb`: builds
 * the CONSTRUCT query that fetches the searchable subgraph. The query is
 * built only when at least one filter has selected values; otherwise the
 * function returns "" before contacting the store.
 */
module DataFetch {
  import opened Options
  import opened Text
  import opened Models
  import opened Conditions

  /** The default `graph_uri`. */
  const DefaultGraph: string := "https://imaging-plaza.epfl.ch/finalGraph"

  /** `?s <{schema}> ?{key}_val. FILTER(?{key}_val IN ({values}))`: one variable in both places. */
  function Condition(f: Filter): string {
    "?s <" + f.schema + "> ?" + f.key + "_val. FILTER(?" + f.key + "_val IN (" + QuotedValues(f.selected) + "))"
  }

  /**
   * Reads a condition back: the schema up to the first `>`, the variable up
   * to the first `.` (it must end in `_val`), then the same variable again in
   * the FILTER and the values.
   */
  function ParseCondition(c: string): Option<Filter> {
    var t :- StripPrefix(c, "?s <");
    var byBracket :- SplitAt(t, '>');
    var u :- StripPrefix(byBracket.1, " ?");
    var byDot :- SplitAt(u, '.');
    var key :- StripSuffix(byDot.0, "_val");
    var v :- StripPrefix(byDot.1, " FILTER(?" + byDot.0 + " IN (");
    var values :- StripSuffix(v, "))");
    var selected :- ParseValues(values);
    Some(Filter(key, byBracket.0, selected))
  }

  /** The filters whose condition can be read back unambiguously. */
  predicate Readable(f: Filter) {
    '>' !in f.schema && '.' !in f.key && QuoteFree(f.selected)
  }

  /** The pieces of a condition, grouped in the order a reader meets its delimiters. */
  lemma ConditionPieces(f: Filter)
    ensures Condition(f)
         == "?s <" + (f.schema + ['>'] + (" ?" + ((f.key + "_val") + ['.']
              + (" FILTER(?" + (f.key + "_val") + " IN (" + (QuotedValues(f.selected) + "))")))))
  {
  }

  /** A condition determines its filter. */
  lemma ConditionRoundTrip(f: Filter)
    requires Readable(f)
    ensures ParseCondition(Condition(f)) == Some(f)
  {
    var values := QuotedValues(f.selected);
    var variable := f.key + "_val";
    var after := " FILTER(?" + variable + " IN (" + (values + "))");
    ConditionPieces(f);
    StripPrefixOf("?s <", f.schema + ['>'] + (" ?" + (variable + ['.'] + after)));
    SplitAtFirst(f.schema, '>', " ?" + (variable + ['.'] + after));
    StripPrefixOf(" ?", variable + ['.'] + after);
    assert '.' !in variable;
    SplitAtFirst(variable, '.', after);
    StripSuffixOf(f.key, "_val");
    StripPrefixOf(" FILTER(?" + variable + " IN (", values + "))");
    StripSuffixOf(values, "))");
    QuotedValuesRoundTrip(f.selected);
  }

  /** Whatever reads as a condition is exactly the condition of what it reads as. */
  lemma ConditionExact(c: string)
    requires ParseCondition(c).Some?
    ensures Readable(ParseCondition(c).value)
    ensures Condition(ParseCondition(c).value) == c
  {
    var t := StripPrefix(c, "?s <").value;
    var byBracket := SplitAt(t, '>').value;
    var u := StripPrefix(byBracket.1, " ?").value;
    var byDot := SplitAt(u, '.').value;
    var key := StripSuffix(byDot.0, "_val").value;
    var v := StripPrefix(byDot.1, " FILTER(?" + byDot.0 + " IN (").value;
    var values := StripSuffix(v, "))").value;
    ParseEnclosedExact(values, '"', '"', ", ");
    var f := ParseCondition(c).value;
    assert f == Filter(key, byBracket.0, ParseValues(values).value);
    assert QuotedValues(f.selected) == values;
    assert byDot.0 == f.key + "_val";
    assert byDot.1 == " FILTER(?" + (f.key + "_val") + " IN (" + (values + "))");
    assert c == "?s <" + (f.schema + ['>'] + (" ?" + ((f.key + "_val") + ['.'] + byDot.1)));
    ConditionPieces(f);
  }

  /** The query text before `graph_uri`. */
  const QueryHead: string :=
    "\n    PREFIX rdf: <http://www.w3.org/1999/02/22-rdf-syntax-ns#>"
    + "\n    PREFIX schema: <http://schema.org/>"
    + "\n    PREFIX imag: <https://imaging-plaza.epfl.ch/ontology#>"
    + "\n    PREFIX fuzon: <http://example.org/fuzon#>"
    + "\n"
    + "\n    CONSTRUCT "
    + "\n    {"
    + "\n        ?s fuzon:searchIndexPredicate ?literal ."
    + "\n        ?s ?p ?o ."
    + "\n        ?o ?p2 ?o2 ."
    + "\n        ?o2 ?p3 ?o3 ."
    + "\n    }"
    + "\n    WHERE {"
    + "\n        GRAPH <"

  /** The query text between the `>` closing `graph_uri` and the filter conditions. */
  const QueryMiddle: string :=
    " {"
    + "\n            ?s rdf:type schema:SoftwareSourceCode ;"
    + "\n            ?p ?o ."
    + "\n"
    + "\n            OPTIONAL { "
    + "\n                ?o ?p2 ?o2 ."
    + "\n                OPTIONAL { ?o2 ?p3 ?o3 } "
    + "\n            }"
    + "\n"
    + "\n            FILTER(isLiteral(?o))"
    + "\n"
    + "\n            BIND(str(?o) as ?literal)"
    + "\n            "

  /** The query text after the filter conditions. */
  const QueryTail: string := "\n        }\n    }\n    "

  /** The CONSTRUCT query with `GRAPH <{graph_uri}>` and `{filter_conditions}` filled in. */
  function ConstructQuery(graph: string, conditions: string): string {
    Fill(QueryHead, graph, '>', QueryMiddle, conditions, QueryTail)
  }

  /** Reads the graph IRI and the filter conditions back out of a CONSTRUCT query. */
  function ParseConstructQuery(q: string): Option<(string, string)> {
    Unfill(q, QueryHead, '>', QueryMiddle, QueryTail)
  }

  /** The graph IRI sits inside `GRAPH <…>` and the conditions are inserted verbatim. */
  lemma ConstructQueryRoundTrip(graph: string, conditions: string)
    requires '>' !in graph
    ensures ParseConstructQuery(ConstructQuery(graph, conditions)) == Some((graph, conditions))
  {
    UnfillFill(QueryHead, graph, '>', QueryMiddle, conditions, QueryTail);
  }

  /** A query that reads back is exactly the CONSTRUCT query built from what it reads back as. */
  lemma ConstructQueryExact(q: string)
    requires ParseConstructQuery(q).Some?
    ensures '>' !in ParseConstructQuery(q).value.0
    ensures ConstructQuery(ParseConstructQuery(q).value.0, ParseConstructQuery(q).value.1) == q
  {
    UnfillExact(q, QueryHead, '>', QueryMiddle, QueryTail);
  }

  /** The default graph is an IRI the query can carry. */
  lemma DefaultGraphFits()
    ensures '>' !in DefaultGraph
  {
  }

  /** `" ".join(conditions)`, one condition per filter with selected values. */
  function FilterConditions(filters: seq<Filter>): string {
    Join(" ", Render(Contributing(filters), Condition))
  }

  /** What `get_data_from_graphdb` sends to the store for these filters, if anything. */
  function QueryPlan(filters: Option<seq<Filter>>, graph: string): Plan {
    if filters.None? || filters.value == [] then NoQuery
    else
      var conditions := Render(Contributing(filters.value), Condition);
      if conditions == [] then NoQuery
      else Query(ConstructQuery(graph, Join(" ", conditions)))
  }

  /**
   * `get_data_from_graphdb` up to the SPARQL call: the two early `return ""`
   * exits, the condition loop and the query assembly.
   */
  method GetDataFromGraphDb(filters: Option<seq<Filter>>, graphUri: string) returns (plan: Plan)
    ensures plan == QueryPlan(filters, graphUri)
  {
    if filters.None? || filters.value == [] {
      return NoQuery;
    }
    var conditions := CollectConditions(filters.value, Condition);
    if conditions == [] {
      return NoQuery;
    }
    var filterConditions := Join(" ", conditions);
    plan := Query(ConstructQuery(graphUri, filterConditions));
  }

  /** No query is built exactly when there are no filters or every `selected` is empty. */
  lemma NoQueryIff(filters: Option<seq<Filter>>, graph: string)
    ensures QueryPlan(filters, graph) == NoQuery
        <==> filters.None? || forall i :: 0 <= i < |filters.value| ==> filters.value[i].selected == []
  {
    if filters.Some? {
      ContributingNone(filters.value);
      RenderEmpty(Contributing(filters.value), Condition);
    }
  }

  /**
   * A built query names the requested graph and carries the filter
   * conditions, which are non-empty.
   */
  lemma QueryCarriesConditions(filters: seq<Filter>, graph: string)
    requires '>' !in graph
    requires QueryPlan(Some(filters), graph).Query?
    ensures ParseConstructQuery(QueryPlan(Some(filters), graph).text) == Some((graph, FilterConditions(filters)))
    ensures FilterConditions(filters) != ""
  {
    ConstructQueryRoundTrip(graph, FilterConditions(filters));
    var conditions := Render(Contributing(filters), Condition);
    RenderLength(Contributing(filters), Condition);
    forall i | 0 <= i < |conditions|
      ensures conditions[i] != ""
    {
      RenderAt(Contributing(filters), Condition, i);
      assert conditions[i][0] == '?';
    }
    JoinIsEmpty(" ", conditions);
  }

  /** The i-th condition is that of the i-th filter with selected values, and reads back as it. */
  lemma ConditionPerFilter(filters: seq<Filter>, i: nat)
    requires i < |Contributing(filters)|
    requires Readable(Contributing(filters)[i])
    ensures |Render(Contributing(filters), Condition)| == |Contributing(filters)|
    ensures ParseCondition(Render(Contributing(filters), Condition)[i]) == Some(Contributing(filters)[i])
  {
    RenderAt(Contributing(filters), Condition, i);
    ConditionRoundTrip(Contributing(filters)[i]);
  }

  /** Conditions follow the order of the filters: a split list joins its two halves with one space. */
  lemma FilterConditionsConcat(a: seq<Filter>, b: seq<Filter>)
    requires Contributing(a) != [] && Contributing(b) != []
    ensures FilterConditions(a + b) == FilterConditions(a) + " " + FilterConditions(b)
  {
    ContributingConcat(a, b);
    RenderConcat(Contributing(a), Contributing(b), Condition);
    JoinConcat(" ", Render(Contributing(a), Condition), Render(Contributing(b), Condition));
  }

  /** Filters with nothing selected add nothing. */
  lemma FilterConditionsSkipEmpty(a: seq<Filter>, b: seq<Filter>)
    requires forall i :: 0 <= i < |b| ==> b[i].selected == []
    ensures FilterConditions(a + b) == FilterConditions(a)
  {
    ContributingNone(b);
    ContributingConcat(a, b);
    assert Contributing(a) + Contributing(b) == Contributing(a);
  }

  /** With the default graph, a built query names `finalGraph` and carries the filter conditions. */
  lemma DefaultQueryNamesGraph(filters: seq<Filter>)
    requires QueryPlan(Some(filters), DefaultGraph).Query?
    ensures ParseConstructQuery(QueryPlan(Some(filters), DefaultGraph).text)
         == Some((DefaultGraph, FilterConditions(filters)))
  {
    DefaultGraphFits();
    QueryCarriesConditions(filters, DefaultGraph);
  }
}
