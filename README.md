# Imaging Plaza search: SPARQL builders, result shaping and the search endpoint

This project models the deterministic core of the Imaging Plaza search service and proves
properties of that model in Dafny. The service finds imaging software described as RDF in a
GraphDB store. Its core has three parts.

- **SPARQL builders, in three revisions.** Each builder turns a list of
  `Filter(key, schema, selected)` into a space-joined list of
  `triple pattern + FILTER(?var IN ("v1", "v2"))` clauses. Only filters with a non-empty
  `selected` contribute. The clauses are spliced into a query template.
  - `src/imaging_plaza_search/data_fetch.py` builds a CONSTRUCT query with bracketed schemas and
    `?key_val` variables (module `DataFetch`). It returns `""` early when there are no filters or
    no filter selects anything.
  - The top-level `data_fetch.py` builds a SELECT query with unbracketed schemas (module
    `LegacyDataFetch`). It returns early only for a missing or empty list.
  - `sparql_service/query_builder.py` adds a search condition over matcher URIs and has its own
    filter builder (module `QueryBuilder`).
- **Result shaping.** This covers `clean_uri` and `format_results` (module `Utils`), and also
  `clean_label` with the results comprehension of the endpoint (module `SearchEndpoint`).
- **The `/v1/search` decision flow** (module `SearchEndpoint`). It runs in this order:
  1. the configuration guard;
  2. the `filters` parameter;
  3. the fetch;
  4. the blank-data exit;
  5. the matcher, queried with `top(search, 10)`;
  6. the mapping of each failure to a status and a detail text.

Shared pieces live in `Conditions` and `Text`. `Conditions` holds the condition loop that all three
revisions repeat, the quoted value list and the unbracketed condition. `Text` holds `join`, prefix
and suffix stripping, and a decoder for delimited lists.

Network execution is out of the model. Each `get_data_from_graphdb` is modelled up to the query
string and returns a `Plan` value: `NoQuery` for the early `return ""`, or `Query(text)`. The
environment, the JSON/pydantic parser, the store and the Fuzon matcher are function parameters of
`SearchEndpoint.Search`. Each parameter yields what the real component returns or raises.

Each builder is paired with a decoder. The decoder reads the graph IRI, the conditions, the filter
keys, schemas and values, or the matched URIs back out of the text. A round-trip lemma shows that
the decoder gives back what the builder put in, in the same order. An "Exact" lemma shows the
converse: any text the decoder accepts is the builder's output for what it reads back. Every
template, condition and list decoder has both. `Utils.ReadResults` has only the first direction,
because a JSON document with extra members also reads back.

The repository has no ranking code. Matching is delegated to the foreign `pyfuzon.TermMatcher`, so
the matcher is a parameter and no scoring is modelled. The weight table of
`src/imaging_plaza_search/config.py` is imported at src/imaging_plaza_search/utils.py:5 but never
used.

Two consequences come out of the model.

- **The current service finds nothing without filters.** `SearchEndpoint.NoSelectionFindsNothing`
  composes the endpoint with `DataFetch`. A search whose filters are missing, or select nothing,
  always returns an empty list, whatever the store and the matcher would give. This is because
  `get_data_from_graphdb` returns `""` before querying.
- **Values are not escaped.** A selected value containing `", "` produces the same text as two
  values (`Conditions.QuotedValuesCollide`). The decoders therefore read back only values without
  quotes, schemas without the delimiter that ends them, and keys without `.`.

## Model

| member | source | states |
|---|---|---|
| Conditions.CollectConditions | src/imaging_plaza_search/data_fetch.py:46-55 | the loop returns one rendered condition for each filter with a non-empty `selected`, in input order, and nothing for the others (the same loop appears at data_fetch.py:30-35 and sparql_service/query_builder.py:26-31) |
| Conditions.ContributingMembers | src/imaging_plaza_search/data_fetch.py:47-48 | a filter contributes a condition exactly when it is in the input and its `selected` is non-empty |
| Conditions.ContributingNone | src/imaging_plaza_search/data_fetch.py:46-58 | no condition is produced exactly when every filter's `selected` is empty |
| Conditions.ContributingConcat | src/imaging_plaza_search/data_fetch.py:47-55 | selection distributes over concatenation, so the conditions keep the filters' order |
| Conditions.RenderAt | src/imaging_plaza_search/data_fetch.py:51-55 | the i-th appended condition is the condition of the i-th contributing filter, and there is one per contributing filter |
| Conditions.RenderConcat | src/imaging_plaza_search/data_fetch.py:46-55 | rendering a split list gives the two halves' conditions in order |
| Conditions.QuotedValuesRoundTrip | src/imaging_plaza_search/data_fetch.py:50 | every value is wrapped in `"…"` and separated by `", "`, and the values are recovered in order from the list when none contains `"` |
| Conditions.QuotedValuesCollide | src/imaging_plaza_search/data_fetch.py:50 | nothing is escaped: the one value `a", "b` writes the same list as the two values `a` and `b` |
| Conditions.BareConditionRoundTrip | sparql_service/query_builder.py:29-30 | `?s {schema} ?{key}. FILTER(?{key} IN ({values}))` gives back its schema, its key (the same variable in the pattern and the FILTER) and its values |
| Conditions.BareConditionExact | data_fetch.py:33-34 | any text that reads as a bare condition is exactly the bare condition of what it reads as |
| DataFetch.ConditionRoundTrip | src/imaging_plaza_search/data_fetch.py:50-54 | `?s <{schema}> ?{key}_val. FILTER(?{key}_val IN ({values}))` gives back the filter; the triple pattern and the FILTER use the same variable |
| DataFetch.ConditionExact | src/imaging_plaza_search/data_fetch.py:51-54 | any text that reads as a condition is exactly the condition of the filter it reads as |
| DataFetch.ConstructQueryRoundTrip | src/imaging_plaza_search/data_fetch.py:66-95 | the CONSTRUCT query holds the graph IRI inside `GRAPH <…>` and the filter conditions verbatim after the BIND, and both are read back |
| DataFetch.ConstructQueryExact | src/imaging_plaza_search/data_fetch.py:66-95 | any text that reads as a CONSTRUCT query is exactly the query built from the graph and conditions it reads as |
| DataFetch.DefaultGraphFits | src/imaging_plaza_search/data_fetch.py:15 | the default graph `https://imaging-plaza.epfl.ch/finalGraph` can stand inside `GRAPH <…>` |
| DataFetch.DefaultQueryNamesGraph | src/imaging_plaza_search/data_fetch.py:15 | with the default `graph_uri`, a built query reads back as the graph `https://imaging-plaza.epfl.ch/finalGraph` and the filter conditions (the graph is placed at line 80) |
| DataFetch.GetDataFromGraphDb | src/imaging_plaza_search/data_fetch.py:43-95 | the method (both early exits, the loop, the join, the template) yields exactly the plan `QueryPlan` specifies |
| DataFetch.NoQueryIff | src/imaging_plaza_search/data_fetch.py:43-58 | no query is built exactly when `filters` is None or every filter's `selected` is empty (an empty list included) |
| DataFetch.QueryCarriesConditions | src/imaging_plaza_search/data_fetch.py:57-95 | a built query carries the requested graph and the space-joined conditions, which are non-empty |
| DataFetch.ConditionPerFilter | src/imaging_plaza_search/data_fetch.py:46-55 | the i-th condition reads back as the i-th filter with selected values |
| DataFetch.FilterConditionsConcat | src/imaging_plaza_search/data_fetch.py:60 | conditions are joined by one space and follow the order of the filters |
| DataFetch.FilterConditionsSkipEmpty | src/imaging_plaza_search/data_fetch.py:47-48 | appending filters whose `selected` is empty leaves the conditions unchanged |
| LegacyDataFetch.SelectQueryRoundTrip | data_fetch.py:39-48 | the SELECT query holds `graph` inside `GRAPH <…>` and the filter conditions after the type pattern, and both are read back |
| LegacyDataFetch.SelectQueryExact | data_fetch.py:39-48 | any text that reads as a SELECT query is exactly the query built from the graph and conditions it reads as |
| LegacyDataFetch.DefaultQueryNamesGraph | data_fetch.py:12 | with the default `graph`, a non-empty filter list gives a query that reads back as the graph `https://imaging-plaza.epfl.ch/finalGraph` and the bare conditions (the graph is placed at line 44) |
| LegacyDataFetch.GetDataFromGraphDb | data_fetch.py:27-48 | the method (early exit, loop, join, `.format`) yields exactly the plan `QueryPlan` specifies |
| LegacyDataFetch.NoQueryIff | data_fetch.py:27-28 | no query is built exactly when `filters` is None or empty; filters that select nothing still give a query |
| LegacyDataFetch.QueryCarriesConditions | data_fetch.py:30-48 | a built query carries the graph and the joined bare conditions, which are empty exactly when every `selected` is empty |
| LegacyDataFetch.ConditionPerFilter | data_fetch.py:30-35 | the i-th condition reads back as the i-th filter with selected values |
| Conditions.BareConditionsEmptyIff | data_fetch.py:30-37 | the joined bare conditions are `""` exactly when no filter selects anything (the same loop and join are at sparql_service/query_builder.py:26-33) |
| Conditions.BareConditionsConcat | data_fetch.py:37 | bare conditions are joined by one space, in filter order |
| QueryBuilder.ExtractRelevantTerms | sparql_service/query_builder.py:11-13 | the result has the length of the matcher's output and holds the first component of each row, in order |
| QueryBuilder.SearchConditionEmptyIff | sparql_service/query_builder.py:17-18 | the search condition is `""` exactly when no URI was matched |
| QueryBuilder.SearchConditionRoundTrip | sparql_service/query_builder.py:19-20 | each matched URI appears as `<uri>`, space-separated and in matcher order, inside `FILTER(?match_uri IN (…))`, and the URIs are read back |
| QueryBuilder.SearchConditionExact | sparql_service/query_builder.py:15-20 | any text that reads as a search condition is exactly the condition of the URIs it reads as |
| QueryBuilder.SearchConditionOneLine | sparql_service/query_builder.py:19-20 | the search condition has no line break when no URI has one |
| QueryBuilder.BuildFilterConditions | sparql_service/query_builder.py:22-33 | the method (early exit, loop, join) returns exactly `FilterConditions` |
| QueryBuilder.FilterConditionsEmptyIff | sparql_service/query_builder.py:22-33 | the filter conditions are `""` exactly when `filters` is None or no filter selects anything |
| QueryBuilder.BuildSparqlQuery | sparql_service/query_builder.py:35-50 | the query is the template filled with the search condition of the top 5 matches and the filter conditions |
| QueryBuilder.SelectQueryExact | sparql_service/query_builder.py:39-49 | any text that reads as the search query is exactly the template filled with the search and filter conditions it reads as |
| QueryBuilder.SparqlQueryParts | sparql_service/query_builder.py:39-49 | the search condition stands before the `rdf:type` pattern and the filter conditions after it; both are read back, and the search condition gives back the matched URIs |
| Text.JoinConcat | src/imaging_plaza_search/data_fetch.py:60 | joining two non-empty part lists is the two joins with one separator between |
| Utils.CleanUri | src/imaging_plaza_search/utils.py:8-15 | the term changes exactly when it starts with `<` and ends with `>`, and then it is the term with that one pair removed; the length is kept or shrinks by 2 |
| Utils.CleanUriUnwraps | src/imaging_plaza_search/utils.py:13-14 | `<u>` is cleaned to exactly `u` |
| Utils.CleanUriOnePair | src/imaging_plaza_search/utils.py:13-15 | only one pair is removed: `<<a>>` gives `<a>` and `<>` gives `""` |
| Utils.FormatResults | src/imaging_plaza_search/utils.py:19-36 | the loop returns the results document whose bindings are `{"s": {"type": "uri", "value": uri}}`, one per input entry, in order |
| Utils.FormatResultsReadsBack | src/imaging_plaza_search/utils.py:20-33 | the document has the head `{"vars": ["s"]}` and its bindings give back the input URIs, in order |
| Utils.FormatResultsIgnoresScores | src/imaging_plaza_search/utils.py:22-28 | score and idx are discarded: entries with the same URIs give the same document |
| SearchEndpoint.StripQuotes | src/imaging_plaza_search/main.py:171 | the result of `strip('"')` neither starts nor ends with `"` |
| SearchEndpoint.StripQuotesRemovesQuotes | src/imaging_plaza_search/main.py:171 | the input is a run of quotes, the result, and another run of quotes |
| SearchEndpoint.StripQuotesExact | src/imaging_plaza_search/main.py:171 | any number of quotes on either side of a text not bounded by a quote is removed, and nothing else |
| SearchEndpoint.StripQuotesOnlyQuotes | src/imaging_plaza_search/main.py:171 | a text made only of quotes is stripped to `""` |
| SearchEndpoint.CleanLabel | src/imaging_plaza_search/main.py:168-171 | a label with a value gives that value unchanged; any other label gives its text with the leading and trailing runs of quotes removed: the text is quotes, the result, quotes, and the result neither starts nor ends with a quote |
| SearchEndpoint.Results | src/imaging_plaza_search/main.py:173-176 | one `{label, uri}` record per term, in matcher order, with the cleaned label and the URI unchanged |
| SearchEndpoint.ResultsConcat | src/imaging_plaza_search/main.py:173-176 | records are computed term by term: a split term list gives the halves' records in order |
| SearchEndpoint.Search | src/imaging_plaza_search/main.py:109-191 | the response is the 503 configuration error exactly when a connection setting is missing or empty; it is a 400 exactly when the settings are present and the `filters` text does not parse; every error has status 400, 500 or 503 |
| SearchEndpoint.UnconfiguredConsultsNothing | src/imaging_plaza_search/main.py:109-115 | without configuration, the parser, the fetch and the matcher do not affect the response |
| SearchEndpoint.NoFilterParamFetchesEmpty | src/imaging_plaza_search/main.py:117-129 | without a truthy `filters` parameter, nothing is parsed and the response depends on the fetch only through its answer for `[]` |
| SearchEndpoint.FilterParamErrors | src/imaging_plaza_search/main.py:118-124 | invalid JSON gives 400 "…not valid JSON."; a validation error gives 400 "…structure is invalid - " followed by its message |
| SearchEndpoint.BlankDataFindsNothing | src/imaging_plaza_search/main.py:131-132 | empty or whitespace-only N-Triples give an empty list, whatever the matcher |
| SearchEndpoint.OnlyTopTenMatters | src/imaging_plaza_search/main.py:151 | the matcher affects the response only through `top(search, 10)` |
| SearchEndpoint.HitsFollowTopTerms | src/imaging_plaza_search/main.py:151-178 | when `top` ranks terms, the response is exactly their records: one per term, in order, with the cleaned label and the URI |
| SearchEndpoint.ProcessingErrors | src/imaging_plaza_search/main.py:135-191 | a `RuntimeError` from the fetch or from `top` gives 500 "Data Fetching Error: m"; a failed matcher build gives 500 "Fuzon Initialization Error: …"; any other exception from the fetch or from `top` gives 500 "Search Processing Error: …" |
| SearchEndpoint.NoSelectionFindsNothing | src/imaging_plaza_search/main.py:126-132 | with the fetch of src/imaging_plaza_search/data_fetch.py, a search whose filters are missing or select nothing returns an empty list |

## Left out

- SPARQL execution: `SPARQLWrapper`, credentials, the return format and the `HTTPError` to `RuntimeError` conversion (src/imaging_plaza_search/data_fetch.py:97-112, data_fetch.py:50-73). These are network I/O through a foreign library. The builders stop at the query text (`Plan`), and the endpoint takes the fetch outcome as a parameter.
- Temporary-file write and `os.unlink` (src/imaging_plaza_search/main.py:134-149). This is filesystem I/O; building the matcher is one parameter that yields a matcher or an error.
- JSON and pydantic parsing of `filters` (src/imaging_plaza_search/main.py:120). This is a library; it is a parameter yielding filters, a JSON error or a validation error.
- Environment reading (`os.getenv`, `dotenv`), the FastAPI app, routing, the two exception handlers, logging, and the `print` at src/imaging_plaza_search/utils.py:35. These are framework plumbing and I/O.
- `pyfuzon.TermMatcher` (src/imaging_plaza_search/main.py:142-151, sparql_service/query_builder.py:12-13). It is a foreign matcher and appears only as a function parameter.
- src/imaging_plaza_search/config.py: a weight table, imported at src/imaging_plaza_search/utils.py:5 and never used.
- sparql_service/main.py: a fragment that cannot run (its imports are missing) and that only does I/O.
- `SearchEndpoint.CleanLabel`: `clean_label` can raise on an arbitrary object, but labels are modelled as a value or a text, so this cannot happen here. In the model only a non-`RuntimeError` exception from the fetch or from `top` reaches the "Search Processing Error" branch; a failed matcher build always gives "Fuzon Initialization Error".
- `Utils.CleanUri`: `str(term)` on a non-string is not modelled; the term is a string.
- `QueryBuilder.ExtractRelevantTerms`: the matcher is built from the index file at `data_path`; the model takes the built matcher's `top` as a parameter.
- Scores are modelled as `real` and never inspected; floating point is not modelled.
- `SearchEndpoint.Blank` follows the whitespace set of Python's `str.isspace`, which `strip()` removes. The model does not cover Unicode database revisions in which that set differs.
