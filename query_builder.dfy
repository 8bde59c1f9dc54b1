/**
 * sparql_service/query_builder.py: a SELECT query for the software entries
 * that the matcher found for a search string and that pass the filters. The
 * search condition comes before the `rdf:type` pattern, the filter
 * conditions after it.
 */
module QueryBuilder {
  import opened Options
  import opened Text
  import opened Models
  import opened Conditions

  /** `TOP_N_MATCHES`: how many matches the search condition asks the matcher for. */
  const TopNMatches: nat := 5

  /**
   * One row of `TermMatcher.top`: the builder uses only its first component,
   * the URI of a matched entry.
   */
  datatype MatchRow = MatchRow(uri: string, score: real)

  /**
   * `extract_relevant_terms`: the first component of every row the matcher
   * returns for `top(query, n)`, in the matcher's order. `top` stands for the
   * matcher built from the index file.
   */
  function ExtractRelevantTerms(top: (string, nat) -> seq<MatchRow>, query: string, n: nat): (terms: seq<string>)
    ensures |terms| == |top(query, n)|
    ensures forall i :: 0 <= i < |terms| ==> terms[i] == top(query, n)[i].uri
  {
    var rows := top(query, n);
    seq(|rows|, i requires 0 <= i < |rows| => rows[i].uri)
  }

  /** The text of a search condition before its URI list. */
  const SearchHead: string := "?s schema:identifier" + " ?match_uri." + " FILTER(?match_uri IN ("

  /**
   * `build_search_condition`, given the matched URIs: "" when there are none,
   * otherwise every URI as `<uri>`, space-separated, inside the FILTER.
   */
  function SearchCondition(matched: seq<string>): string {
    if matched == [] then ""
    else SearchHead + Enclosed(matched, '<', '>', " ") + "))"
  }

  /** Reads the matched URIs back out of a search condition. */
  function ParseSearchCondition(s: string): Option<seq<string>> {
    if s == "" then Some([])
    else
      var t :- StripPrefix(s, SearchHead);
      var list :- StripSuffix(t, "))");
      var uris :- ParseEnclosed(list, '<', '>', " ");
      if uris == [] then None else Some(uris)
  }

  /** The search condition is empty exactly when the matcher found nothing. */
  lemma SearchConditionEmptyIff(matched: seq<string>)
    ensures SearchCondition(matched) == "" <==> matched == []
  {
  }

  /** The matched URIs, in matcher order, are recovered from the search condition. */
  lemma SearchConditionRoundTrip(matched: seq<string>)
    requires Unenclosing(matched, '>')
    ensures ParseSearchCondition(SearchCondition(matched)) == Some(matched)
  {
    if matched != [] {
      var list := Enclosed(matched, '<', '>', " ");
      assert SearchCondition(matched) == SearchHead + (list + "))");
      StripPrefixOf(SearchHead, list + "))");
      StripSuffixOf(list, "))");
      ParseEnclosedRoundTrip(matched, '<', '>', " ");
    }
  }

  /** Whatever reads as a search condition is exactly the condition of the URIs it reads as. */
  lemma SearchConditionExact(s: string)
    requires ParseSearchCondition(s).Some?
    ensures Unenclosing(ParseSearchCondition(s).value, '>')
    ensures SearchCondition(ParseSearchCondition(s).value) == s
  {
    if s != "" {
      var t := StripPrefix(s, SearchHead).value;
      var list := StripSuffix(t, "))").value;
      ParseEnclosedExact(list, '<', '>', " ");
      assert s == SearchHead + list + "))";
    }
  }

  lemma SearchHeadOneLine()
    ensures '\n' !in SearchHead
  {
    assert '\n' !in "?s schema:identifier";
    assert '\n' !in " ?match_uri.";
    assert '\n' !in " FILTER(?match_uri IN (";
  }

  /** A search condition has no line break when no URI has one. */
  lemma SearchConditionOneLine(matched: seq<string>)
    requires forall i :: 0 <= i < |matched| ==> '\n' !in matched[i]
    ensures '\n' !in SearchCondition(matched)
  {
    if matched != [] {
      EnclosedAvoids(matched, '<', '>', " ", '\n');
      SearchHeadOneLine();
      var list := Enclosed(matched, '<', '>', " ");
      assert '\n' !in "))";
      assert SearchCondition(matched) == SearchHead + list + "))";
    }
  }

  /** `build_filter_conditions`, specified: "" for a missing or empty list, else the joined bare conditions. */
  function FilterConditions(filters: Option<seq<Filter>>): string {
    if filters.None? || filters.value == [] then ""
    else BareConditions(filters.value)
  }

  /** `build_filter_conditions`: the early exit, the condition loop and the join. */
  method BuildFilterConditions(filters: Option<seq<Filter>>) returns (conditions: string)
    ensures conditions == FilterConditions(filters)
  {
    if filters.None? || filters.value == [] {
      return "";
    }
    var parts := CollectConditions(filters.value, BareCondition);
    conditions := Join(" ", parts);
  }

  /** The filter conditions are empty exactly when no filter has selected values. */
  lemma FilterConditionsEmptyIff(filters: Option<seq<Filter>>)
    ensures FilterConditions(filters) == ""
        <==> filters.None? || forall i :: 0 <= i < |filters.value| ==> filters.value[i].selected == []
  {
    if filters.Some? {
      BareConditionsEmptyIff(filters.value);
    }
  }

  /** The query text before `{search_condition}`. */
  const QueryHead: string :=
    "PREFIX rdf: <http://www.w3.org/1999/02/22-rdf-syntax-ns#>"
    + "\nPREFIX schema: <http://schema.org/>"
    + "\nPREFIX imag: <https://imaging-plaza.epfl.ch/ontology#>"
    + "\nSELECT DISTINCT ?s"
    + "\nWHERE {"
    + "\n  GRAPH <https://imaging-plaza.epfl.ch/finalGraph> {"
    + "\n    "

  /** The type pattern, after the line break that ends `{search_condition}`. */
  const TypePattern: string := "    ?s rdf:type schema:SoftwareSourceCode.\n    "

  /** The query text after `{filter_conditions}`. */
  const QueryTail: string := "\n  }\n}"

  /** The SELECT template with the search condition and the filter conditions filled in. */
  function SelectQuery(searchCondition: string, filterConditions: string): string {
    Fill(QueryHead, searchCondition, '\n', TypePattern, filterConditions, QueryTail)
  }

  /** Reads the search condition (before the type pattern) and the filter conditions (after it) back. */
  function ParseSelectQuery(q: string): Option<(string, string)> {
    Unfill(q, QueryHead, '\n', TypePattern, QueryTail)
  }

  /** A query that reads back is exactly the SELECT query built from what it reads back as. */
  lemma SelectQueryExact(q: string)
    requires ParseSelectQuery(q).Some?
    ensures '\n' !in ParseSelectQuery(q).value.0
    ensures SelectQuery(ParseSelectQuery(q).value.0, ParseSelectQuery(q).value.1) == q
  {
    UnfillExact(q, QueryHead, '\n', TypePattern, QueryTail);
  }

  /** `build_sparql_query`: asks the matcher for the top 5 matches, then fills the template. */
  method BuildSparqlQuery(top: (string, nat) -> seq<MatchRow>, search: string, filters: Option<seq<Filter>>)
    returns (query: string)
    ensures query == SelectQuery(SearchCondition(ExtractRelevantTerms(top, search, TopNMatches)), FilterConditions(filters))
  {
    var searchCondition := SearchCondition(ExtractRelevantTerms(top, search, TopNMatches));
    var filterConditions := BuildFilterConditions(filters);
    query := SelectQuery(searchCondition, filterConditions);
  }

  /**
   * The search condition stands before the type pattern and the filter
   * conditions after it: both are read back from the query, and the search
   * condition gives back the matched URIs in matcher order.
   */
  lemma SparqlQueryParts(top: (string, nat) -> seq<MatchRow>, search: string, filters: Option<seq<Filter>>)
    requires forall i :: 0 <= i < |top(search, TopNMatches)| ==>
               '\n' !in top(search, TopNMatches)[i].uri && '>' !in top(search, TopNMatches)[i].uri
    ensures var matched := ExtractRelevantTerms(top, search, TopNMatches);
            var sc := SearchCondition(matched);
            ParseSelectQuery(SelectQuery(sc, FilterConditions(filters))) == Some((sc, FilterConditions(filters)))
            && ParseSearchCondition(sc) == Some(matched)
  {
    var matched := ExtractRelevantTerms(top, search, TopNMatches);
    SearchConditionOneLine(matched);
    UnfillFill(QueryHead, SearchCondition(matched), '\n', TypePattern, FilterConditions(filters), QueryTail);
    SearchConditionRoundTrip(matched);
  }
}
