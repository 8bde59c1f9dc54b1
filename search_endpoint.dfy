/**
 * src/imaging_plaza_search/main.py, the `/v1/search` endpoint: the
 * configuration guard, the `filters` parameter, the fetch, the blank-data
 * exit, the matcher, the top-10 query, label cleaning and the mapping of
 * every failure to an HTTP status and detail.
 *
 * The environment, the JSON/pydantic parser, the graph store and the Fuzon
 * matcher are parameters: each is given as what it produces or raises.
 */
module SearchEndpoint {
  import opened Options
  import opened Text
  import opened Models
  import opened Conditions
  import DataFetch

  // ---------------------------------------------------------------- labels

  /**
   * A matcher label: an object with a `.value` attribute (an RDF literal),
   * given by `str(label.value)`, or any other object, given by `str(label)`.
   */
  datatype Label = Literal(value: string) | Plain(text: string)

  /** A term returned by `matcher.top`; `name` is its `label`. */
  datatype Term = Term(name: Label, uri: string)

  /** One result entry, `{"label": name, "uri": uri}`. */
  datatype Hit = Hit(name: string, uri: string)

  /** `n` double quotes. */
  function Quotes(n: nat): (q: string)
    ensures |q| == n
  {
    if n == 0 then "" else "\"" + Quotes(n - 1)
  }

  /** `s.lstrip('"')`. */
  function StripLeadingQuotes(s: string): (r: string)
    ensures r == [] || r[0] != '"'
    ensures |r| <= |s|
    decreases |s|
  {
    if s != [] && s[0] == '"' then StripLeadingQuotes(s[1..]) else s
  }

  /** `s.rstrip('"')`. */
  function StripTrailingQuotes(s: string): (r: string)
    ensures r == [] || r[|r| - 1] != '"'
    ensures r <= s
    decreases |s|
  {
    if s != [] && s[|s| - 1] == '"' then StripTrailingQuotes(s[..|s| - 1]) else s
  }

  /** `lstrip` removes a run of quotes: the input is that run followed by the result. */
  lemma {:induction false} StripLeadingSplits(s: string)
    ensures s == Quotes(|s| - |StripLeadingQuotes(s)|) + StripLeadingQuotes(s)
    decreases |s|
  {
    if s != [] && s[0] == '"' {
      StripLeadingSplits(s[1..]);
      var r := StripLeadingQuotes(s[1..]);
      assert s == "\"" + s[1..];
      assert "\"" + Quotes(|s| - 1 - |r|) == Quotes(|s| - |r|);
    }
  }

  /** `rstrip` removes a run of quotes: the input is the result followed by that run. */
  lemma {:induction false} StripTrailingSplits(s: string)
    ensures s == StripTrailingQuotes(s) + Quotes(|s| - |StripTrailingQuotes(s)|)
    decreases |s|
  {
    if s != [] && s[|s| - 1] == '"' {
      StripTrailingSplits(s[..|s| - 1]);
      var r := StripTrailingQuotes(s[..|s| - 1]);
      QuotesSnoc(|s| - 1 - |r|);
      assert s == s[..|s| - 1] + "\"";
    }
  }

  lemma {:induction false} QuotesSnoc(n: nat)
    ensures Quotes(n) + "\"" == Quotes(n + 1)
  {
    if n > 0 {
      QuotesSnoc(n - 1);
    }
  }

  /** `s.strip('"')`: the leading quotes, then the trailing quotes, removed. */
  function StripQuotes(s: string): (r: string)
    ensures r == [] || (r[0] != '"' && r[|r| - 1] != '"')
  {
    var inner := StripLeadingQuotes(s);
    StripTrailingQuotes(inner)
  }

  /** What `strip('"')` removes is quotes only: some on the left, some on the right. */
  lemma StripQuotesRemovesQuotes(s: string)
    ensures |StripQuotes(s)| <= |s|
    ensures s == Quotes(|s| - |StripLeadingQuotes(s)|) + StripQuotes(s)
                 + Quotes(|StripLeadingQuotes(s)| - |StripQuotes(s)|)
  {
    StripLeadingSplits(s);
    StripTrailingSplits(StripLeadingQuotes(s));
  }

  lemma {:induction false} QuotesConcat(a: nat, b: nat)
    ensures Quotes(a) + Quotes(b) == Quotes(a + b)
  {
    if a > 0 {
      QuotesConcat(a - 1, b);
      assert Quotes(a) + Quotes(b) == "\"" + (Quotes(a - 1) + Quotes(b));
    }
  }

  lemma {:induction false} StripLeadingOf(a: nat, r: string)
    requires r == [] || r[0] != '"'
    ensures StripLeadingQuotes(Quotes(a) + r) == r
  {
    if a > 0 {
      assert (Quotes(a) + r)[1..] == Quotes(a - 1) + r;
      StripLeadingOf(a - 1, r);
    } else {
      assert Quotes(a) + r == r;
    }
  }

  lemma {:induction false} StripTrailingOf(r: string, b: nat)
    requires r == [] || r[|r| - 1] != '"'
    ensures StripTrailingQuotes(r + Quotes(b)) == r
  {
    if b > 0 {
      QuotesSnoc(b - 1);
      assert r + Quotes(b) == (r + Quotes(b - 1)) + "\"";
      assert (r + Quotes(b))[..|r + Quotes(b)| - 1] == r + Quotes(b - 1);
      StripTrailingOf(r, b - 1);
    } else {
      assert r + Quotes(b) == r;
    }
  }

  /** A label made of quotes only is cleaned to the empty string. */
  lemma StripQuotesOnlyQuotes(n: nat)
    ensures StripQuotes(Quotes(n)) == []
  {
    StripLeadingOf(n, []);
    assert Quotes(n) + [] == Quotes(n);
  }

  /** Surrounding quotes, however many on either side, are removed and nothing else. */
  lemma StripQuotesExact(a: nat, r: string, b: nat)
    requires r == [] || (r[0] != '"' && r[|r| - 1] != '"')
    ensures StripQuotes(Quotes(a) + r + Quotes(b)) == r
  {
    if r == [] {
      StripQuotesBetween(a, b);
      assert Quotes(a) + r + Quotes(b) == Quotes(a) + Quotes(b);
    } else {
      StripQuotesAround(a, r, b);
    }
  }

  lemma StripQuotesBetween(a: nat, b: nat)
    ensures StripQuotes(Quotes(a) + Quotes(b)) == []
  {
    QuotesConcat(a, b);
    StripQuotesOnlyQuotes(a + b);
  }

  lemma StripQuotesAround(a: nat, r: string, b: nat)
    requires r != [] && r[0] != '"' && r[|r| - 1] != '"'
    ensures StripQuotes(Quotes(a) + r + Quotes(b)) == r
  {
    var rest := r + Quotes(b);
    assert Quotes(a) + r + Quotes(b) == Quotes(a) + rest;
    StripLeadingOf(a, rest);
    StripTrailingOf(r, b);
  }

  /** `clean_label`: the literal's value as it is, or the label's text without surrounding quotes. */
  function CleanLabel(l: Label): (r: string)
    ensures l.Literal? ==> r == l.value
    ensures l.Plain? ==> r == [] || (r[0] != '"' && r[|r| - 1] != '"')
    ensures l.Plain? ==> |r| <= |StripLeadingQuotes(l.text)| <= |l.text|
    ensures l.Plain? ==> l.text == Quotes(|l.text| - |StripLeadingQuotes(l.text)|) + r
                                   + Quotes(|StripLeadingQuotes(l.text)| - |r|)
  {
    match l
    case Literal(value) => value
    case Plain(text) =>
      StripQuotesRemovesQuotes(text);
      StripQuotes(text)
  }

  /** The results comprehension: one hit per term, in the matcher's order. */
  function Results(terms: seq<Term>): (hits: seq<Hit>)
    ensures |hits| == |terms|
    ensures forall i :: 0 <= i < |terms| ==> hits[i] == Hit(CleanLabel(terms[i].name), terms[i].uri)
  {
    seq(|terms|, i requires 0 <= i < |terms| => Hit(CleanLabel(terms[i].name), terms[i].uri))
  }

  /** Results are computed term by term, so a split list gives the two halves' results. */
  lemma ResultsConcat(a: seq<Term>, b: seq<Term>)
    ensures Results(a + b) == Results(a) + Results(b)
  {
  }

  // ------------------------------------------------------- the collaborators

  /** `GRAPHDB_URL`, `GRAPHDB_USER`, `GRAPHDB_PASSWORD` as read from the environment. */
  datatype Settings = Settings(url: Option<string>, user: Option<string>, password: Option<string>)

  /** The query parameters: `search`, and `filters` if it was given. */
  datatype Request = Request(search: string, filters: Option<string>)

  /** What parsing the `filters` text gives: the filters, a JSON error or a validation error. */
  datatype FilterParse = Parsed(filters: seq<Filter>) | NotJson | Invalid(reason: string)

  /** What `get_data_from_graphdb` gives: N-Triples text, a `RuntimeError`, or another exception. */
  datatype Fetch = Fetched(ntriples: string) | FetchRuntimeError(message: string) | FetchFailed(message: string)

  /** What `matcher.top` gives: terms, a `RuntimeError`, or another exception. */
  datatype Ranking = Ranked(terms: seq<Term>) | RankingRuntimeError(message: string) | RankingFailed(message: string)

  /** Building the matcher from the N-Triples text (a temporary file plus `TermMatcher.from_files`). */
  datatype Matcher = Ready(top: (string, nat) -> Ranking) | InitFailed(message: string)

  /** The endpoint's answer: a 200 with the hits, or an HTTP error with its detail. */
  datatype Response = Found(hits: seq<Hit>) | Failure(status: nat, detail: string)

  /** How many terms are asked of the matcher. */
  const MatchLimit: nat := 10

  const ConfigurationError: string :=
    "Configuration Error: GraphDB connection details (URL, user, or password) are missing."

  const NotJsonError: string := "Query Parameter Error: 'filters' parameter is not valid JSON."

  function InvalidFiltersError(reason: string): string {
    "Query Parameter Error: 'filters' structure is invalid - " + reason
  }

  function FetchingError(message: string): string {
    "Data Fetching Error: " + message
  }

  function InitializationError(message: string): string {
    "Fuzon Initialization Error: Failed to initialize Fuzon matcher - " + message
  }

  function ProcessingError(message: string): string {
    "Search Processing Error: An unexpected issue occurred - " + message
  }

  /** A Python value that is truthy: present and not the empty string. */
  predicate Truthy(s: Option<string>) {
    s.Some? && s.value != ""
  }

  /** `all([db_host, db_user, db_password])`. */
  predicate Configured(settings: Settings) {
    Truthy(settings.url) && Truthy(settings.user) && Truthy(settings.password)
  }

  /** The characters Python's `str.strip()` removes (those for which `isspace()` holds). */
  predicate IsSpace(c: char) {
    ('\t' <= c <= '\r') || ('\U{1c}' <= c <= ' ') || c == '\U{85}' || c == '\U{a0}' || c == '\U{1680}'
    || ('\U{2000}' <= c <= '\U{200a}') || c == '\U{2028}' || c == '\U{2029}' || c == '\U{202f}'
    || c == '\U{205f}' || c == '\U{3000}'
  }

  /** `not s.strip()`. */
  predicate Blank(s: string) {
    forall i :: 0 <= i < |s| ==> IsSpace(s[i])
  }

  // ---------------------------------------------------------- the endpoint

  /** `parsed_filters`: the parsed `filters` text when it is truthy, else `[]`. */
  function FilterParam(request: Request, parse: string -> FilterParse): FilterParse {
    if Truthy(request.filters) then parse(request.filters.value) else Parsed([])
  }

  /** Everything after the fetch: the blank exit, the matcher, `top(search, 10)` and the results. */
  function Respond(search: string, fetched: Fetch, matcher: string -> Matcher): Response {
    match fetched
    case FetchRuntimeError(message) => Failure(500, FetchingError(message))
    case FetchFailed(message) => Failure(500, ProcessingError(message))
    case Fetched(ntriples) =>
      if Blank(ntriples) then Found([])
      else
        match matcher(ntriples)
        case InitFailed(message) => Failure(500, InitializationError(message))
        case Ready(top) =>
          match top(search, MatchLimit)
          case RankingRuntimeError(message) => Failure(500, FetchingError(message))
          case RankingFailed(message) => Failure(500, ProcessingError(message))
          case Ranked(terms) => Found(Results(terms))
  }

  /**
   * `search`: 503 without configuration, 400 for a `filters` text that does
   * not parse, otherwise the fetch for the parsed filters and what follows.
   */
  function Search(settings: Settings, request: Request, parse: string -> FilterParse,
                  fetch: seq<Filter> -> Fetch, matcher: string -> Matcher): (r: Response)
    ensures r == Failure(503, ConfigurationError) <==> !Configured(settings)
    ensures r.Failure? ==> r.status == 400 || r.status == 500 || r.status == 503
    ensures r.Failure? && r.status == 400 <==> Configured(settings) && !FilterParam(request, parse).Parsed?
  {
    if !Configured(settings) then Failure(503, ConfigurationError)
    else
      match FilterParam(request, parse)
      case NotJson => Failure(400, NotJsonError)
      case Invalid(reason) => Failure(400, InvalidFiltersError(reason))
      case Parsed(filters) => Respond(request.search, fetch(filters), matcher)
  }

  /** Without configuration nothing else is consulted: no parse, no fetch, no matcher. */
  lemma UnconfiguredConsultsNothing(settings: Settings, request: Request,
                                    parse: string -> FilterParse, parse': string -> FilterParse,
                                    fetch: seq<Filter> -> Fetch, fetch': seq<Filter> -> Fetch,
                                    matcher: string -> Matcher, matcher': string -> Matcher)
    requires !Configured(settings)
    ensures Search(settings, request, parse, fetch, matcher) == Search(settings, request, parse', fetch', matcher')
  {
  }

  /** Without a (truthy) `filters` parameter, nothing is parsed and the fetch is asked for `[]`. */
  lemma NoFilterParamFetchesEmpty(settings: Settings, request: Request,
                                  parse: string -> FilterParse, parse': string -> FilterParse,
                                  fetch: seq<Filter> -> Fetch, fetch': seq<Filter> -> Fetch,
                                  matcher: string -> Matcher)
    requires !Truthy(request.filters)
    requires fetch([]) == fetch'([])
    ensures Search(settings, request, parse, fetch, matcher) == Search(settings, request, parse', fetch', matcher)
  {
  }

  /** The two parse failures give their own 400 details. */
  lemma FilterParamErrors(settings: Settings, request: Request, parse: string -> FilterParse,
                          fetch: seq<Filter> -> Fetch, matcher: string -> Matcher)
    requires Configured(settings) && Truthy(request.filters)
    ensures parse(request.filters.value) == NotJson
        ==> Search(settings, request, parse, fetch, matcher) == Failure(400, NotJsonError)
    ensures parse(request.filters.value).Invalid?
        ==> Search(settings, request, parse, fetch, matcher)
            == Failure(400, InvalidFiltersError(parse(request.filters.value).reason))
  {
  }

  /** Blank N-Triples data gives an empty 200 without building a matcher. */
  lemma BlankDataFindsNothing(settings: Settings, request: Request, parse: string -> FilterParse,
                              fetch: seq<Filter> -> Fetch, matcher: string -> Matcher, filters: seq<Filter>)
    requires Configured(settings) && FilterParam(request, parse) == Parsed(filters)
    requires fetch(filters).Fetched? && Blank(fetch(filters).ntriples)
    ensures Search(settings, request, parse, fetch, matcher) == Found([])
  {
  }

  /**
   * The answer depends on the matcher only through `top(search, 10)`: two
   * matchers that agree there give the same response.
   */
  lemma OnlyTopTenMatters(settings: Settings, request: Request, parse: string -> FilterParse,
                          fetch: seq<Filter> -> Fetch, matcher: string -> Matcher,
                          matcher': string -> Matcher, filters: seq<Filter>)
    requires Configured(settings) && FilterParam(request, parse) == Parsed(filters)
    requires fetch(filters).Fetched? && !Blank(fetch(filters).ntriples)
    requires matcher(fetch(filters).ntriples).Ready? && matcher'(fetch(filters).ntriples).Ready?
    requires matcher(fetch(filters).ntriples).top(request.search, MatchLimit)
          == matcher'(fetch(filters).ntriples).top(request.search, MatchLimit)
    ensures Search(settings, request, parse, fetch, matcher) == Search(settings, request, parse, fetch, matcher')
  {
  }

  /** A successful search returns one hit per top term, in order: its cleaned label and its URI. */
  lemma HitsFollowTopTerms(settings: Settings, request: Request, parse: string -> FilterParse,
                           fetch: seq<Filter> -> Fetch, matcher: string -> Matcher,
                           filters: seq<Filter>, terms: seq<Term>)
    requires Configured(settings) && FilterParam(request, parse) == Parsed(filters)
    requires fetch(filters).Fetched? && !Blank(fetch(filters).ntriples)
    requires matcher(fetch(filters).ntriples).Ready?
    requires matcher(fetch(filters).ntriples).top(request.search, MatchLimit) == Ranked(terms)
    ensures Search(settings, request, parse, fetch, matcher) == Found(Results(terms))
  {
  }

  /**
   * Failures after the parse: a `RuntimeError` from the fetch or the matcher
   * query is a data fetching error, a failed matcher build an initialization
   * error, any other exception a processing error; all are 500.
   */
  lemma ProcessingErrors(settings: Settings, request: Request, parse: string -> FilterParse,
                         fetch: seq<Filter> -> Fetch, matcher: string -> Matcher, filters: seq<Filter>)
    requires Configured(settings) && FilterParam(request, parse) == Parsed(filters)
    ensures fetch(filters).FetchRuntimeError?
        ==> Search(settings, request, parse, fetch, matcher) == Failure(500, FetchingError(fetch(filters).message))
    ensures fetch(filters).FetchFailed?
        ==> Search(settings, request, parse, fetch, matcher) == Failure(500, ProcessingError(fetch(filters).message))
    ensures fetch(filters).Fetched? && !Blank(fetch(filters).ntriples)
            && matcher(fetch(filters).ntriples).InitFailed?
        ==> Search(settings, request, parse, fetch, matcher)
            == Failure(500, InitializationError(matcher(fetch(filters).ntriples).message))
    ensures fetch(filters).Fetched? && !Blank(fetch(filters).ntriples)
            && matcher(fetch(filters).ntriples).Ready?
            && matcher(fetch(filters).ntriples).top(request.search, MatchLimit).RankingRuntimeError?
        ==> Search(settings, request, parse, fetch, matcher)
            == Failure(500, FetchingError(matcher(fetch(filters).ntriples).top(request.search, MatchLimit).message))
    ensures fetch(filters).Fetched? && !Blank(fetch(filters).ntriples)
            && matcher(fetch(filters).ntriples).Ready?
            && matcher(fetch(filters).ntriples).top(request.search, MatchLimit).RankingFailed?
        ==> Search(settings, request, parse, fetch, matcher)
            == Failure(500, ProcessingError(matcher(fetch(filters).ntriples).top(request.search, MatchLimit).message))
  {
  }

  // ------------------------------------- with the store behind DataFetch

  /**
   * The fetch `search` calls: "" when `get_data_from_graphdb` returns early,
   * otherwise what the store gives for the CONSTRUCT query on the default graph.
   */
  function GraphDbFetch(execute: string -> Fetch, filters: seq<Filter>): Fetch {
    match DataFetch.QueryPlan(Some(filters), DataFetch.DefaultGraph)
    case NoQuery => Fetched("")
    case Query(q) => execute(q)
  }

  /**
   * With the fetch of src/imaging_plaza_search/data_fetch.py, a search
   * without filters, or whose filters select nothing, finds nothing, whatever
   * the store and the matcher would have given.
   */
  lemma NoSelectionFindsNothing(settings: Settings, request: Request, parse: string -> FilterParse,
                                execute: string -> Fetch, matcher: string -> Matcher, filters: seq<Filter>)
    requires Configured(settings) && FilterParam(request, parse) == Parsed(filters)
    requires forall i :: 0 <= i < |filters| ==> filters[i].selected == []
    ensures Search(settings, request, parse, fs => GraphDbFetch(execute, fs), matcher) == Found([])
  {
    DataFetch.NoQueryIff(Some(filters), DataFetch.DefaultGraph);
  }
}
