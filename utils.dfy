/**
 * src/imaging_plaza_search/utils.py: `clean_uri`, which unwraps one `<…>`
 * pair, and `format_results`, which lays ranked URIs out as a SPARQL JSON
 * results document.
 */
module Utils {
  import opened Options
  import opened Text

  /** `clean_uri`: the term without its first and last character when it starts with `<` and ends with `>`. */
  function CleanUri(term: string): (r: string)
    ensures r != term <==> StartsWith(term, "<") && EndsWith(term, ">")
    ensures r != term ==> "<" + r + ">" == term
    ensures |r| == |term| || |r| == |term| - 2
  {
    if StartsWith(term, "<") && EndsWith(term, ">") then
      assert term[0] == '<' && term[|term| - 1] == '>';
      term[1..|term| - 1]
    else term
  }

  /** A bracketed URI is unwrapped to exactly what was inside. */
  lemma CleanUriUnwraps(uri: string)
    ensures CleanUri("<" + uri + ">") == uri
  {
    var s := "<" + uri + ">";
    assert StartsWith(s, "<") && s[|s| - 1..] == ">";
    assert s[1..|s| - 1] == uri;
  }

  /** Only one pair is removed: `<<a>>` gives `<a>`, and `<>` gives the empty string. */
  lemma CleanUriOnePair()
    ensures CleanUri("<<a>>") == "<a>"
    ensures CleanUri("<>") == ""
  {
    CleanUriUnwraps("<a>");
    CleanUriUnwraps("");
  }

  /** A (small) JSON value: the shapes `format_results` builds. */
  datatype Json = JString(text: string) | JArray(items: seq<Json>) | JObject(members: seq<(string, Json)>)

  /** One entry of `sorted_terms`: a URI with its score and index. */
  datatype RankedTerm = RankedTerm(uri: string, score: real, idx: int)

  /** `{"s": {"type": "uri", "value": uri}}`. */
  function Binding(uri: string): Json {
    JObject([("s", JObject([("type", JString("uri")), ("value", JString(uri))]))])
  }

  /** `{"vars": ["s"]}`. */
  const Head: Json := JObject([("vars", JArray([JString("s")]))])

  /** `{"head": …, "results": {"bindings": bindings}}`. */
  function ResultsDocument(bindings: seq<Json>): Json {
    JObject([("head", Head), ("results", JObject([("bindings", JArray(bindings))]))])
  }

  /** The URIs of the ranked terms, in order. */
  function Uris(terms: seq<RankedTerm>): (uris: seq<string>)
    ensures |uris| == |terms|
  {
    seq(|terms|, i requires 0 <= i < |terms| => terms[i].uri)
  }

  /** The binding of every URI, in order. */
  function Bindings(uris: seq<string>): (bindings: seq<Json>)
    ensures |bindings| == |uris|
  {
    seq(|uris|, i requires 0 <= i < |uris| => Binding(uris[i]))
  }

  /** `format_results`: appends one binding per `(uri, score, idx)` entry; score and idx are dropped. */
  method FormatResults(sortedTerms: seq<RankedTerm>) returns (result: Json)
    ensures result == ResultsDocument(Bindings(Uris(sortedTerms)))
  {
    var bindings: seq<Json> := [];
    for i := 0 to |sortedTerms|
      invariant |bindings| == i
      invariant forall k :: 0 <= k < i ==> bindings[k] == Binding(sortedTerms[k].uri)
    {
      var term := sortedTerms[i];
      bindings := bindings + [Binding(term.uri)];
    }
    assert bindings == Bindings(Uris(sortedTerms));
    result := ResultsDocument(bindings);
  }

  /** The value stored under `key` in a JSON object's members, the first if repeated. */
  function Lookup(members: seq<(string, Json)>, key: string): Option<Json>
    decreases |members|
  {
    if members == [] then None
    else if members[0].0 == key then Some(members[0].1)
    else Lookup(members[1..], key)
  }

  /** The URI of a binding `{"s": {"type": "uri", "value": uri}}`. */
  function BoundUri(binding: Json): Option<string> {
    if !binding.JObject? then None
    else
      var s :- Lookup(binding.members, "s");
      if !s.JObject? || Lookup(s.members, "type") != Some(JString("uri")) then None
      else
        var value :- Lookup(s.members, "value");
        if value.JString? then Some(value.text) else None
  }

  /** The URI of every binding, in order. */
  function BoundUris(bindings: seq<Json>): Option<seq<string>>
    decreases |bindings|
  {
    if bindings == [] then Some([])
    else
      var uri :- BoundUri(bindings[0]);
      var rest :- BoundUris(bindings[1..]);
      Some([uri] + rest)
  }

  /** Reads a results document: its head must be exactly `{"vars": ["s"]}`; gives the bound URIs. */
  function ReadResults(doc: Json): Option<seq<string>> {
    if !doc.JObject? || Lookup(doc.members, "head") != Some(Head) then None
    else
      var results :- Lookup(doc.members, "results");
      if !results.JObject? then None
      else
        var bindings :- Lookup(results.members, "bindings");
        if bindings.JArray? then BoundUris(bindings.items) else None
  }

  lemma BoundUriOfBinding(uri: string)
    ensures BoundUri(Binding(uri)) == Some(uri)
  {
    var inner := [("type", JString("uri")), ("value", JString(uri))];
    assert Lookup(Binding(uri).members, "s") == Some(JObject(inner));
    assert Lookup(inner, "type") == Some(JString("uri"));
    assert inner[1..] == [("value", JString(uri))];
    assert Lookup(inner, "value") == Some(JString(uri));
  }

  lemma {:induction false} BoundUrisOfBindings(uris: seq<string>)
    ensures BoundUris(Bindings(uris)) == Some(uris)
    decreases |uris|
  {
    if uris != [] {
      assert Bindings(uris)[0] == Binding(uris[0]);
      assert Bindings(uris)[1..] == Bindings(uris[1..]);
      BoundUriOfBinding(uris[0]);
      BoundUrisOfBindings(uris[1..]);
      assert [uris[0]] + uris[1..] == uris;
    }
  }

  /**
   * The document has the `{"vars": ["s"]}` head and one binding per ranked
   * term, whose value is that term's URI, in input order.
   */
  lemma FormatResultsReadsBack(sortedTerms: seq<RankedTerm>)
    ensures ReadResults(ResultsDocument(Bindings(Uris(sortedTerms)))) == Some(Uris(sortedTerms))
  {
    var doc := ResultsDocument(Bindings(Uris(sortedTerms)));
    var results := JObject([("bindings", JArray(Bindings(Uris(sortedTerms))))]);
    assert Lookup(doc.members, "head") == Some(Head);
    assert doc.members[1..] == [("results", results)];
    assert Lookup(doc.members, "results") == Some(results);
    BoundUrisOfBindings(Uris(sortedTerms));
  }

  /** Scores and indices do not reach the document: terms with equal URIs format alike. */
  lemma FormatResultsIgnoresScores(a: seq<RankedTerm>, b: seq<RankedTerm>)
    requires |a| == |b|
    requires forall i :: 0 <= i < |a| ==> a[i].uri == b[i].uri
    ensures ResultsDocument(Bindings(Uris(a))) == ResultsDocument(Bindings(Uris(b)))
  {
    assert Uris(a) == Uris(b);
  }
}
