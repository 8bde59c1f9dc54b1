/**
 * What the three revisions of the SPARQL builders have in common: the loop
 * that keeps one condition per filter with a non-empty `selected`, the
 * quoted values list of a condition, and the unbracketed condition form
 * shared by sparql_service/query_builder.py and the top-level data_fetch.py.
 */
module Conditions {
  import opened Options
  import opened Text
  import opened Models

  /** What a builder hands to the SPARQL endpoint: nothing (the early `return ""`), or a query. */
  datatype Plan = NoQuery | Query(text: string)

  /** The filters that contribute a condition: those whose `selected` is non-empty, in input order. */
  function Contributing(filters: seq<Filter>): seq<Filter>
    decreases |filters|
  {
    if filters == [] then []
    else (if filters[0].selected != [] then [filters[0]] else []) + Contributing(filters[1..])
  }

  /** Selection distributes over concatenation, so the input order is kept. */
  lemma {:induction false} ContributingConcat(a: seq<Filter>, b: seq<Filter>)
    ensures Contributing(a + b) == Contributing(a) + Contributing(b)
    decreases |a|
  {
    if a == [] {
      assert a + b == b;
    } else {
      assert (a + b)[0] == a[0];
      assert (a + b)[1..] == a[1..] + b;
      ContributingConcat(a[1..], b);
    }
  }

  /** A filter is kept exactly when it is one of the inputs and its `selected` is non-empty. */
  lemma {:induction false} ContributingMembers(filters: seq<Filter>, f: Filter)
    ensures f in Contributing(filters) <==> f in filters && f.selected != []
    decreases |filters|
  {
    if filters != [] {
      ContributingMembers(filters[1..], f);
      assert filters == [filters[0]] + filters[1..];
    }
  }

  /** Nothing is kept exactly when every filter has an empty `selected`. */
  lemma {:induction false} ContributingNone(filters: seq<Filter>)
    ensures Contributing(filters) == [] <==> forall i :: 0 <= i < |filters| ==> filters[i].selected == []
    decreases |filters|
  {
    if filters != [] {
      ContributingNone(filters[1..]);
      assert forall i :: 1 <= i < |filters| ==> filters[i] == filters[1..][i - 1];
    }
  }

  /** Every filter rendered by `condition`, in order. */
  function Render(filters: seq<Filter>, condition: Filter -> string): seq<string>
    decreases |filters|
  {
    if filters == [] then [] else [condition(filters[0])] + Render(filters[1..], condition)
  }

  lemma {:induction false} RenderLength(filters: seq<Filter>, condition: Filter -> string)
    ensures |Render(filters, condition)| == |filters|
    decreases |filters|
  {
    if filters != [] {
      RenderLength(filters[1..], condition);
    }
  }

  lemma RenderEmpty(filters: seq<Filter>, condition: Filter -> string)
    ensures Render(filters, condition) == [] <==> filters == []
  {
  }

  /** Rendering yields one condition per filter, at the same position. */
  lemma {:induction false} RenderAt(filters: seq<Filter>, condition: Filter -> string, i: nat)
    requires i < |filters|
    ensures |Render(filters, condition)| == |filters|
    ensures Render(filters, condition)[i] == condition(filters[i])
    decreases |filters|
  {
    if i > 0 {
      RenderAt(filters[1..], condition, i - 1);
    } else if |filters| > 1 {
      RenderAt(filters[1..], condition, 0);
    }
  }

  lemma {:induction false} RenderConcat(a: seq<Filter>, b: seq<Filter>, condition: Filter -> string)
    ensures Render(a + b, condition) == Render(a, condition) + Render(b, condition)
    decreases |a|
  {
    if a == [] {
      assert a + b == b;
    } else {
      assert (a + b)[0] == a[0];
      assert (a + b)[1..] == a[1..] + b;
      RenderConcat(a[1..], b, condition);
    }
  }

  /**
   * The `for` loop of every revision: walks the filters and appends the
   * condition of each filter whose `selected` is non-empty.
   */
  method CollectConditions(filters: seq<Filter>, condition: Filter -> string) returns (conditions: seq<string>)
    ensures conditions == Render(Contributing(filters), condition)
  {
    conditions := [];
    var i := 0;
    while i < |filters|
      invariant 0 <= i <= |filters|
      invariant conditions == Render(Contributing(filters[..i]), condition)
    {
      var f := filters[i];
      assert filters[..i + 1] == filters[..i] + [f];
      ContributingConcat(filters[..i], [f]);
      RenderConcat(Contributing(filters[..i]), Contributing([f]), condition);
      if f.selected != [] {
        conditions := conditions + [condition(f)];
      }
      i := i + 1;
    }
    assert filters[..i] == filters;
  }

  /** `", ".join(f'"{val}"' for val in selected)`: no quote inside a value is escaped. */
  function QuotedValues(selected: seq<string>): string {
    Enclosed(selected, '"', '"', ", ")
  }

  /** Reads a values list back: each value runs from a `"` to the next `"`. */
  function ParseValues(s: string): Option<seq<string>> {
    ParseEnclosed(s, '"', '"', ", ")
  }

  /** True when no selected value contains a double quote. */
  predicate QuoteFree(selected: seq<string>) {
    Unenclosing(selected, '"')
  }

  /** The values, in their order, are recovered from the list when none contains a `"`. */
  lemma QuotedValuesRoundTrip(selected: seq<string>)
    requires QuoteFree(selected)
    ensures ParseValues(QuotedValues(selected)) == Some(selected)
  {
    ParseEnclosedRoundTrip(selected, '"', '"', ", ");
  }

  /**
   * Without escaping, a value holding `", "` reads as two values: the one
   * value `a", "b` writes the same list as the two values `a` and `b`.
   */
  lemma QuotedValuesCollide()
    ensures QuotedValues(["a\", \"b"]) == QuotedValues(["a", "b"])
    ensures ["a\", \"b"] != ["a", "b"]
  {
    EnclosedCons(["a\", \"b"], '"', '"', ", ");
    EnclosedCons(["a", "b"], '"', '"', ", ");
    assert ["a", "b"][1..] == ["b"];
    EnclosedCons(["b"], '"', '"', ", ");
  }

  /** `?s {schema} ?{key}. FILTER(?{key} IN ({values}))`: schema unbracketed, one variable `?{key}`. */
  function BareCondition(f: Filter): string {
    "?s " + f.schema + " ?" + f.key + ". FILTER(?" + f.key + " IN (" + QuotedValues(f.selected) + "))"
  }

  /**
   * Reads a bare condition back: the schema up to the first space, the key
   * up to the first `.`, then the same key again in the FILTER and the values.
   */
  function ParseBareCondition(c: string): Option<Filter> {
    var t :- StripPrefix(c, "?s ");
    var bySpace :- SplitAt(t, ' ');
    var u :- StripPrefix(bySpace.1, "?");
    var byDot :- SplitAt(u, '.');
    var v :- StripPrefix(byDot.1, " FILTER(?" + byDot.0 + " IN (");
    var values :- StripSuffix(v, "))");
    var selected :- ParseValues(values);
    Some(Filter(byDot.0, bySpace.0, selected))
  }

  /** The filters whose bare condition can be read back unambiguously. */
  predicate BareReadable(f: Filter) {
    ' ' !in f.schema && '.' !in f.key && QuoteFree(f.selected)
  }

  /** The pieces of a bare condition, grouped in the order a reader meets its delimiters. */
  lemma BareConditionPieces(f: Filter)
    ensures BareCondition(f)
         == "?s " + (f.schema + [' '] + ("?" + (f.key + ['.'] + (" FILTER(?" + f.key + " IN (" + (QuotedValues(f.selected) + "))")))))
  {
  }

  /** A bare condition determines its filter: the same key stands in the pattern and in the FILTER. */
  lemma BareConditionRoundTrip(f: Filter)
    requires BareReadable(f)
    ensures ParseBareCondition(BareCondition(f)) == Some(f)
  {
    var values := QuotedValues(f.selected);
    var inFilter := " FILTER(?" + f.key + " IN (";
    var after := inFilter + (values + "))");
    BareConditionPieces(f);
    StripPrefixOf("?s ", f.schema + [' '] + ("?" + (f.key + ['.'] + after)));
    SplitAtFirst(f.schema, ' ', "?" + (f.key + ['.'] + after));
    StripPrefixOf("?", f.key + ['.'] + after);
    SplitAtFirst(f.key, '.', after);
    StripPrefixOf(inFilter, values + "))");
    StripSuffixOf(values, "))");
    QuotedValuesRoundTrip(f.selected);
  }

  /** Whatever reads as a bare condition is exactly the condition of what it reads as. */
  lemma BareConditionExact(c: string)
    requires ParseBareCondition(c).Some?
    ensures BareReadable(ParseBareCondition(c).value)
    ensures BareCondition(ParseBareCondition(c).value) == c
  {
    var t := StripPrefix(c, "?s ").value;
    var bySpace := SplitAt(t, ' ').value;
    var u := StripPrefix(bySpace.1, "?").value;
    var byDot := SplitAt(u, '.').value;
    var v := StripPrefix(byDot.1, " FILTER(?" + byDot.0 + " IN (").value;
    var values := StripSuffix(v, "))").value;
    ParseEnclosedExact(values, '"', '"', ", ");
    var f := ParseBareCondition(c).value;
    assert f == Filter(byDot.0, bySpace.0, ParseValues(values).value);
    assert QuotedValues(f.selected) == values;
    assert byDot.1 == " FILTER(?" + f.key + " IN (" + (values + "))");
    assert c == "?s " + (f.schema + [' '] + ("?" + (f.key + ['.'] + byDot.1)));
    BareConditionPieces(f);
  }

  /** `' '.join(conditions)` over the bare conditions: one per filter with selected values. */
  function BareConditions(filters: seq<Filter>): string {
    Join(" ", Render(Contributing(filters), BareCondition))
  }

  /** The joined bare conditions are empty exactly when no filter has selected values. */
  lemma BareConditionsEmptyIff(filters: seq<Filter>)
    ensures BareConditions(filters) == "" <==> forall i :: 0 <= i < |filters| ==> filters[i].selected == []
  {
    ContributingNone(filters);
    var conditions := Render(Contributing(filters), BareCondition);
    RenderLength(Contributing(filters), BareCondition);
    forall i | 0 <= i < |conditions|
      ensures conditions[i] != ""
    {
      RenderAt(Contributing(filters), BareCondition, i);
      assert conditions[i][0] == '?';
    }
    JoinIsEmpty(" ", conditions);
    RenderEmpty(Contributing(filters), BareCondition);
  }

  /** Bare conditions are joined by one space and follow the order of the filters. */
  lemma BareConditionsConcat(a: seq<Filter>, b: seq<Filter>)
    requires Contributing(a) != [] && Contributing(b) != []
    ensures BareConditions(a + b) == BareConditions(a) + " " + BareConditions(b)
  {
    ContributingConcat(a, b);
    RenderConcat(Contributing(a), Contributing(b), BareCondition);
    JoinConcat(" ", Render(Contributing(a), BareCondition), Render(Contributing(b), BareCondition));
  }
}
