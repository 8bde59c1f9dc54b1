/**
 * data_fetch.py (the older, top-level revision), `get_data_from_graphdb`:
 * builds a SELECT query for the software entries matching the filters. Only
 * a missing or empty filter list returns "" early; when every filter has an
 * empty `selected`, the query is still built, with no filter conditions.
 */
module LegacyDataFetch {
  import opened Options
  import opened Text
  import opened Models
  import opened Conditions

  /** The default `graph`. */
  const DefaultGraph: string := "https://imaging-plaza.epfl.ch/finalGraph"

  /** The query text before `{graph}`. */
  const QueryHead: string :=
    "PREFIX rdf: <http://www.w3.org/1999/02/22-rdf-syntax-ns#>"
    + "\n        PREFIX schema: <http://schema.org/>"
    + "\n        PREFIX imag: <https://imaging-plaza.epfl.ch/ontology#>"
    + "\n        SELECT DISTINCT ?s"
    + "\n        WHERE {"
    + "\n        GRAPH <"

  /** The query text between the `>` closing `{graph}` and `{filter_conditions}`. */
  const QueryMiddle: string :=
    " {"
    + "\n            ?s rdf:type schema:SoftwareSourceCode."
    + "\n            "

  /** The query text after `{filter_conditions}`. */
  const QueryTail: string := "\n        }\n        }"

  /** The SELECT template with `{graph}` and `{filter_conditions}` substituted. */
  function SelectQuery(graph: string, conditions: string): string {
    Fill(QueryHead, graph, '>', QueryMiddle, conditions, QueryTail)
  }

  /** Reads the graph IRI and the filter conditions back out of a SELECT query. */
  function ParseSelectQuery(q: string): Option<(string, string)> {
    Unfill(q, QueryHead, '>', QueryMiddle, QueryTail)
  }

  /** The graph sits inside `GRAPH <…>` and the conditions are substituted verbatim. */
  lemma SelectQueryRoundTrip(graph: string, conditions: string)
    requires '>' !in graph
    ensures ParseSelectQuery(SelectQuery(graph, conditions)) == Some((graph, conditions))
  {
    UnfillFill(QueryHead, graph, '>', QueryMiddle, conditions, QueryTail);
  }

  /** A query that reads back is exactly the SELECT query built from what it reads back as. */
  lemma SelectQueryExact(q: string)
    requires ParseSelectQuery(q).Some?
    ensures '>' !in ParseSelectQuery(q).value.0
    ensures SelectQuery(ParseSelectQuery(q).value.0, ParseSelectQuery(q).value.1) == q
  {
    UnfillExact(q, QueryHead, '>', QueryMiddle, QueryTail);
  }

  /** What this `get_data_from_graphdb` sends to the store for these filters, if anything. */
  function QueryPlan(filters: Option<seq<Filter>>, graph: string): Plan {
    if filters.None? || filters.value == [] then NoQuery
    else Query(SelectQuery(graph, BareConditions(filters.value)))
  }

  /** `get_data_from_graphdb` up to the SPARQL call: the early exit, the loop, the join and the template. */
  method GetDataFromGraphDb(filters: Option<seq<Filter>>, graph: string) returns (plan: Plan)
    ensures plan == QueryPlan(filters, graph)
  {
    if filters.None? || filters.value == [] {
      return NoQuery;
    }
    var conditions := CollectConditions(filters.value, BareCondition);
    var filterConditions := Join(" ", conditions);
    plan := Query(SelectQuery(graph, filterConditions));
  }

  /** No query is built exactly when the filter list is missing or empty. */
  lemma NoQueryIff(filters: Option<seq<Filter>>, graph: string)
    ensures QueryPlan(filters, graph) == NoQuery <==> filters.None? || filters.value == []
  {
  }

  /**
   * A built query names the requested graph and carries the filter
   * conditions; when no filter has selected values they are empty and the
   * query is still built.
   */
  lemma QueryCarriesConditions(filters: seq<Filter>, graph: string)
    requires '>' !in graph
    requires filters != []
    ensures QueryPlan(Some(filters), graph).Query?
    ensures ParseSelectQuery(QueryPlan(Some(filters), graph).text) == Some((graph, BareConditions(filters)))
    ensures BareConditions(filters) == "" <==> forall i :: 0 <= i < |filters| ==> filters[i].selected == []
  {
    SelectQueryRoundTrip(graph, BareConditions(filters));
    BareConditionsEmptyIff(filters);
  }

  /** The i-th condition is that of the i-th filter with selected values, and reads back as it. */
  lemma ConditionPerFilter(filters: seq<Filter>, i: nat)
    requires i < |Contributing(filters)|
    requires BareReadable(Contributing(filters)[i])
    ensures |Render(Contributing(filters), BareCondition)| == |Contributing(filters)|
    ensures ParseBareCondition(Render(Contributing(filters), BareCondition)[i]) == Some(Contributing(filters)[i])
  {
    RenderAt(Contributing(filters), BareCondition, i);
    BareConditionRoundTrip(Contributing(filters)[i]);
  }

  /** With the default graph, a non-empty filter list gives a query that names `finalGraph`. */
  lemma DefaultQueryNamesGraph(filters: seq<Filter>)
    requires filters != []
    ensures QueryPlan(Some(filters), DefaultGraph).Query?
    ensures ParseSelectQuery(QueryPlan(Some(filters), DefaultGraph).text)
         == Some((DefaultGraph, BareConditions(filters)))
  {
    assert '>' !in DefaultGraph;
    QueryCarriesConditions(filters, DefaultGraph);
  }
}
