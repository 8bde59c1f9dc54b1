/**
 * String operations the Python code gets from `str`: `sep.join(parts)`,
 * `startswith`/`endswith`, and the wrapping of every item of a list between
 * two delimiters (`f'"{v}"'`, `f"<{u}>"`). Each builder has a decoder here,
 * so that what a builder writes can be shown to determine what it was given.
 */
module Text {
  import opened Options

  /** Python's `sep.join(parts)`. */
  function Join(sep: string, parts: seq<string>): string
    decreases |parts|
  {
    if parts == [] then ""
    else if |parts| == 1 then parts[0]
    else parts[0] + sep + Join(sep, parts[1..])
  }

  /** With a non-empty separator, a join is empty only when there is nothing to join. */
  lemma JoinIsEmpty(sep: string, parts: seq<string>)
    requires sep != ""
    requires forall i :: 0 <= i < |parts| ==> parts[i] != ""
    ensures Join(sep, parts) == "" <==> parts == []
  {
  }

  /** Joining two non-empty lists puts the separator between their joins: order is kept. */
  lemma {:induction false} JoinConcat(sep: string, a: seq<string>, b: seq<string>)
    requires a != [] && b != []
    ensures Join(sep, a + b) == Join(sep, a) + sep + Join(sep, b)
    decreases |a|
  {
    if |a| == 1 {
      assert (a + b)[1..] == b;
    } else {
      assert (a + b)[1..] == a[1..] + b;
      JoinConcat(sep, a[1..], b);
    }
  }

  /** Python's `s.startswith(p)`. */
  predicate StartsWith(s: string, p: string) {
    p <= s
  }

  /** Python's `s.endswith(p)`. */
  predicate EndsWith(s: string, p: string) {
    |p| <= |s| && s[|s| - |p|..] == p
  }

  /** `s` with the prefix `p` removed, or None when `s` does not start with `p`. */
  function StripPrefix(s: string, p: string): (r: Option<string>)
    ensures r.Some? <==> StartsWith(s, p)
    ensures r.Some? ==> s == p + r.value
  {
    if StartsWith(s, p) then Some(s[|p|..]) else None
  }

  /** `s` with the suffix `p` removed, or None when `s` does not end with `p`. */
  function StripSuffix(s: string, p: string): (r: Option<string>)
    ensures r.Some? <==> EndsWith(s, p)
    ensures r.Some? ==> s == r.value + p
  {
    if EndsWith(s, p) then Some(s[..|s| - |p|]) else None
  }

  lemma StripPrefixOf(p: string, r: string)
    ensures StripPrefix(p + r, p) == Some(r)
  {
    assert (p + r)[|p|..] == r;
  }

  lemma StripSuffixOf(r: string, p: string)
    ensures StripSuffix(r + p, p) == Some(r)
  {
    assert (r + p)[|r|..] == p;
    assert (r + p)[..|r|] == r;
  }

  /** Splits `s` at the first occurrence of `c`: the text before it and the text after it. */
  function SplitAt(s: string, c: char): (r: Option<(string, string)>)
    ensures r.None? <==> c !in s
    ensures r.Some? ==> c !in r.value.0 && s == r.value.0 + [c] + r.value.1
  {
    if s == [] then None
    else if s[0] == c then Some(([], s[1..]))
    else
      match SplitAt(s[1..], c)
      case None => None
      case Some(p) => Some(([s[0]] + p.0, p.1))
  }

  /** Splitting finds the first `c`, so it recovers both halves when the first half has none. */
  lemma {:induction false} SplitAtFirst(a: string, c: char, b: string)
    requires c !in a
    ensures SplitAt(a + [c] + b, c) == Some((a, b))
    decreases |a|
  {
    var s := a + [c] + b;
    if a == [] {
      assert s[0] == c && s[1..] == b;
    } else {
      assert s[0] == a[0] && s[1..] == a[1..] + [c] + b;
      SplitAtFirst(a[1..], c, b);
      assert [a[0]] + a[1..] == a;
    }
  }

  /** Every item written between `open` and `close`. */
  function Wrap(items: seq<string>, open: char, close: char): seq<string>
    decreases |items|
  {
    if items == [] then []
    else [[open] + items[0] + [close]] + Wrap(items[1..], open, close)
  }

  /** True when the closing delimiter occurs in no item. */
  predicate Unenclosing(items: seq<string>, close: char) {
    forall i :: 0 <= i < |items| ==> close !in items[i]
  }

  /** `sep.join(f"{open}{item}{close}" for item in items)`. */
  function Enclosed(items: seq<string>, open: char, close: char, sep: string): string {
    Join(sep, Wrap(items, open, close))
  }

  /** One enclosed item at the front of `s`, and the text after its closing delimiter. */
  function TakeItem(s: string, open: char, close: char): Option<(string, string)> {
    var t :- StripPrefix(s, [open]);
    SplitAt(t, close)
  }

  /** A taken item was enclosed at the front of the text. */
  lemma TakeItemSplits(s: string, open: char, close: char)
    requires TakeItem(s, open, close).Some?
    ensures close !in TakeItem(s, open, close).value.0
    ensures s == [open] + TakeItem(s, open, close).value.0 + [close] + TakeItem(s, open, close).value.1
  {
    var t := StripPrefix(s, [open]).value;
    assert s == [open] + t;
  }

  lemma TakeItemOf(item: string, open: char, close: char, rest: string)
    requires close !in item
    ensures TakeItem([open] + item + [close] + rest, open, close) == Some((item, rest))
  {
    assert [open] + item + [close] + rest == [open] + (item + [close] + rest);
    StripPrefixOf([open], item + [close] + rest);
    SplitAtFirst(item, close, rest);
  }

  /**
   * Reads back a list written by Enclosed: an item is everything between an
   * `open` and the next `close`; items are separated by exactly `sep`.
   */
  function ParseEnclosed(s: string, open: char, close: char, sep: string): Option<seq<string>>
    decreases |s|
  {
    if s == [] then Some([])
    else
      match TakeItem(s, open, close)
      case None => None
      case Some(split) =>
        if split.1 == [] then Some([split.0])
        else
          match StripPrefix(split.1, sep)
          case None => None
          case Some(more) =>
            if more == [] then None
            else
              match ParseEnclosed(more, open, close, sep)
              case None => None
              case Some(items) => Some([split.0] + items)
  }

  /** A non-empty list never encloses to the empty string. */
  lemma EnclosedNonEmpty(items: seq<string>, open: char, close: char, sep: string)
    requires items != []
    ensures Enclosed(items, open, close, sep) != ""
  {
    var w := Wrap(items, open, close);
    assert w[0] == [open] + items[0] + [close];
  }

  /** The first item of an enclosed list, followed by the rest of the list. */
  lemma EnclosedCons(items: seq<string>, open: char, close: char, sep: string)
    requires items != []
    ensures Enclosed(items, open, close, sep)
         == [open] + items[0] + [close]
            + (if |items| == 1 then "" else sep + Enclosed(items[1..], open, close, sep))
  {
    var w := Wrap(items, open, close);
    assert w[1..] == Wrap(items[1..], open, close);
  }

  /** A character that is no delimiter and occurs in no item does not occur in the list. */
  lemma {:induction false} EnclosedAvoids(items: seq<string>, open: char, close: char, sep: string, c: char)
    requires c != open && c != close && c !in sep
    requires forall i :: 0 <= i < |items| ==> c !in items[i]
    ensures c !in Enclosed(items, open, close, sep)
    decreases |items|
  {
    if items != [] {
      EnclosedCons(items, open, close, sep);
      if |items| > 1 {
        EnclosedAvoids(items[1..], open, close, sep, c);
      }
    }
  }

  /** One decoding step: what a non-empty text that decodes is made of. */
  lemma ParseEnclosedStep(s: string, open: char, close: char, sep: string)
    requires s != [] && ParseEnclosed(s, open, close, sep).Some?
    ensures TakeItem(s, open, close).Some?
    ensures var split := TakeItem(s, open, close).value;
            if split.1 == [] then ParseEnclosed(s, open, close, sep).value == [split.0]
            else
              StripPrefix(split.1, sep).Some? && StripPrefix(split.1, sep).value != []
              && ParseEnclosed(StripPrefix(split.1, sep).value, open, close, sep).Some?
              && ParseEnclosed(s, open, close, sep).value
                 == [split.0] + ParseEnclosed(StripPrefix(split.1, sep).value, open, close, sep).value
  {
  }

  /** The last item of a list. */
  lemma ParseEnclosedLast(s: string, open: char, close: char, sep: string, item: string)
    requires TakeItem(s, open, close) == Some((item, []))
    ensures ParseEnclosed(s, open, close, sep) == Some([item])
  {
  }

  /** An item followed by a separator and more items. */
  lemma ParseEnclosedNext(s: string, open: char, close: char, sep: string, item: string, more: string, items: seq<string>)
    requires TakeItem(s, open, close) == Some((item, sep + more))
    requires more != [] && ParseEnclosed(more, open, close, sep) == Some(items)
    ensures ParseEnclosed(s, open, close, sep) == Some([item] + items)
  {
    StripPrefixOf(sep, more);
  }

  lemma ParseEnclosedOne(item: string, open: char, close: char, sep: string)
    requires close !in item
    ensures ParseEnclosed(Enclosed([item], open, close, sep), open, close, sep) == Some([item])
  {
    EnclosedCons([item], open, close, sep);
    TakeItemOf(item, open, close, "");
    assert [open] + item + [close] + "" == Enclosed([item], open, close, sep);
    ParseEnclosedLast(Enclosed([item], open, close, sep), open, close, sep, item);
  }

  lemma ParseEnclosedCons(items: seq<string>, open: char, close: char, sep: string)
    requires |items| > 1 && close !in items[0]
    requires ParseEnclosed(Enclosed(items[1..], open, close, sep), open, close, sep) == Some(items[1..])
    ensures ParseEnclosed(Enclosed(items, open, close, sep), open, close, sep) == Some(items)
  {
    var more := Enclosed(items[1..], open, close, sep);
    EnclosedCons(items, open, close, sep);
    assert Enclosed(items, open, close, sep) == [open] + items[0] + [close] + (sep + more);
    TakeItemOf(items[0], open, close, sep + more);
    EnclosedNonEmpty(items[1..], open, close, sep);
    ParseEnclosedNext(Enclosed(items, open, close, sep), open, close, sep, items[0], more, items[1..]);
    assert [items[0]] + items[1..] == items;
  }

  /** Decoding what was encoded gives the items back, when no item holds the closing delimiter. */
  lemma {:induction false} ParseEnclosedRoundTrip(items: seq<string>, open: char, close: char, sep: string)
    requires Unenclosing(items, close)
    ensures ParseEnclosed(Enclosed(items, open, close, sep), open, close, sep) == Some(items)
    decreases |items|
  {
    if |items| == 1 {
      ParseEnclosedOne(items[0], open, close, sep);
      assert [items[0]] == items;
    } else if |items| > 1 {
      ParseEnclosedRoundTrip(items[1..], open, close, sep);
      ParseEnclosedCons(items, open, close, sep);
    }
  }

  /** Whatever decodes is exactly the encoding of the decoded items, and no item holds `close`. */
  lemma {:induction false} ParseEnclosedExact(s: string, open: char, close: char, sep: string)
    requires ParseEnclosed(s, open, close, sep).Some?
    ensures Unenclosing(ParseEnclosed(s, open, close, sep).value, close)
    ensures Enclosed(ParseEnclosed(s, open, close, sep).value, open, close, sep) == s
    decreases |s|
  {
    if s != [] {
      ParseEnclosedStep(s, open, close, sep);
      TakeItemSplits(s, open, close);
      var split := TakeItem(s, open, close).value;
      if split.1 == [] {
        EnclosedCons([split.0], open, close, sep);
      } else {
        var more := StripPrefix(split.1, sep).value;
        var items := ParseEnclosed(more, open, close, sep).value;
        ParseEnclosedExact(more, open, close, sep);
        EnclosedCons([split.0] + items, open, close, sep);
        assert ([split.0] + items)[1..] == items;
      }
    }
  }

  /**
   * A template with two holes: `head + x + [stop] + mid + y + tail`.
   * The first hole must not contain `stop`; the second may hold anything.
   */
  function Fill(head: string, x: string, stop: char, mid: string, y: string, tail: string): string {
    head + x + [stop] + mid + y + tail
  }

  /** Reads the two holes back out of a filled template. */
  function Unfill(q: string, head: string, stop: char, mid: string, tail: string): Option<(string, string)> {
    var t :- StripPrefix(q, head);
    var split :- SplitAt(t, stop);
    var u :- StripPrefix(split.1, mid);
    var y :- StripSuffix(u, tail);
    Some((split.0, y))
  }

  /** The pieces of a filled template, grouped in the order a reader meets them. */
  lemma FillPieces(head: string, x: string, stop: char, mid: string, y: string, tail: string)
    ensures Fill(head, x, stop, mid, y, tail) == head + (x + [stop] + (mid + (y + tail)))
  {
  }

  /** The holes of a filled template are recovered exactly. */
  lemma UnfillFill(head: string, x: string, stop: char, mid: string, y: string, tail: string)
    requires stop !in x
    ensures Unfill(Fill(head, x, stop, mid, y, tail), head, stop, mid, tail) == Some((x, y))
  {
    FillPieces(head, x, stop, mid, y, tail);
    StripPrefixOf(head, x + [stop] + (mid + (y + tail)));
    SplitAtFirst(x, stop, mid + (y + tail));
    StripPrefixOf(mid, y + tail);
    StripSuffixOf(y, tail);
  }

  /** Whatever a template reads back fills the template to exactly the text it was read from. */
  lemma UnfillExact(q: string, head: string, stop: char, mid: string, tail: string)
    requires Unfill(q, head, stop, mid, tail).Some?
    ensures stop !in Unfill(q, head, stop, mid, tail).value.0
    ensures Fill(head, Unfill(q, head, stop, mid, tail).value.0, stop, mid,
                 Unfill(q, head, stop, mid, tail).value.1, tail) == q
  {
    var t := StripPrefix(q, head).value;
    var split := SplitAt(t, stop).value;
    var u := StripPrefix(split.1, mid).value;
    var y := StripSuffix(u, tail).value;
    FillPieces(head, split.0, stop, mid, y, tail);
    assert split.1 == mid + (y + tail);
  }
}
