/**
 * Python's `str()` of a list of strings, `['a', 'b']`, and a reader that
 * takes such a printed list back apart.
 */
module Printing {
  import opened Wrappers

  /**
   * Python's `str()` of a string: the text in single quotes. It agrees with
   * Python only for printable text without quotes or backslashes; Python
   * escapes those and control characters, which this model does not.
   */
  function Quoted(x: string): (r: string)
    ensures |r| == |x| + 2 && r[0] == '\'' && r[|r| - 1] == '\''
  {
    "'" + x + "'"
  }

  /** The text between the quotes is the string itself. */
  lemma QuotedInside(x: string)
    ensures Quoted(x)[1..|x| + 1] == x
  {
  }

  /** The items of a printed list, separated by `, `. */
  function ShowItems(xs: seq<string>): (r: string)
    ensures r == [] <==> xs == []
  {
    if xs == [] then ""
    else if |xs| == 1 then Quoted(xs[0])
    else Quoted(xs[0]) + (", " + ShowItems(xs[1..]))
  }

  /** Python's `str()` of a list of strings: `['a', 'b']`; `ReadShowList` reads it back. */
  function ShowList(xs: seq<string>): (r: string)
    ensures |r| >= 2 && r[0] == '[' && r[|r| - 1] == ']'
    ensures r == "[]" <==> xs == []
  {
    var r := "[" + ShowItems(xs) + "]";
    assert r[1..|r| - 1] == ShowItems(xs);
    r
  }

  /** A text with no single quote in it. */
  predicate QuoteFree(x: string) {
    forall i :: 0 <= i < |x| ==> x[i] != '\''
  }

  /** Index of the first single quote in `s`, or `|s|` when there is none. */
  function QuoteIndex(s: string): (k: nat)
    ensures k <= |s|
    ensures k < |s| ==> s[k] == '\''
    ensures QuoteFree(s[..k])
  {
    if s == [] || s[0] == '\'' then 0
    else
      var k := 1 + QuoteIndex(s[1..]);
      assert s[..k] == [s[0]] + s[1..][..k - 1];
      k
  }

  /** Reads `'x1', 'x2', ...` back into its items. */
  function ReadItems(b: string): Option<seq<string>>
    decreases |b|
  {
    if |b| == 0 || b[0] != '\'' then None
    else
      var k := QuoteIndex(b[1..]);
      if k == |b| - 1 then None
      else
        var item := b[1..k + 1];
        var after := b[k + 2..];
        if after == [] then Some([item])
        else if |after| >= 2 && after[0] == ',' && after[1] == ' ' then
          match ReadItems(after[2..])
          case None => None
          case Some(rest) => Some([item] + rest)
        else None
  }

  /** Reads a printed list of quote-free strings back, as Python's literal evaluation would. */
  function ReadList(s: string): Option<seq<string>> {
    if |s| >= 2 && s[0] == '[' && s[|s| - 1] == ']' then
      var body := s[1..|s| - 1];
      if body == [] then Some([]) else ReadItems(body)
    else None
  }

  lemma {:induction false} QuoteIndexOfPrefix(x: string, t: string)
    requires QuoteFree(x)
    requires t != [] && t[0] == '\''
    ensures QuoteIndex(x + t) == |x|
  {
    if x != [] {
      assert (x + t)[1..] == x[1..] + t;
      QuoteIndexOfPrefix(x[1..], t);
    }
  }

  /** Reading one quoted item and what follows it. */
  lemma ReadItemsCons(x: string, tail: string)
    requires QuoteFree(x)
    ensures ReadItems(Quoted(x) + tail) ==
      if tail == [] then Some([x])
      else if |tail| >= 2 && tail[0] == ',' && tail[1] == ' ' then
        match ReadItems(tail[2..])
        case None => None
        case Some(rest) => Some([x] + rest)
      else None
  {
    QuotedParts(x, tail);
  }

  /** Where the item and the rest sit in a quoted item followed by `tail`. */
  lemma QuotedParts(x: string, tail: string)
    requires QuoteFree(x)
    ensures var b := Quoted(x) + tail;
            && |b| == |x| + 2 + |tail| && b[0] == '\''
            && QuoteIndex(b[1..]) == |x| && b[1..|x| + 1] == x && b[|x| + 2..] == tail
  {
    var b := Quoted(x) + tail;
    assert b == "'" + (x + ("'" + tail));
    assert b[1..] == x + ("'" + tail);
    QuoteIndexOfPrefix(x, "'" + tail);
    assert b[1..|x| + 1] == x;
    assert b[|x| + 2..] == tail;
  }

  lemma ReadOneItem(x: string)
    requires QuoteFree(x)
    ensures ReadItems(Quoted(x)) == Some([x])
  {
    ReadItemsCons(x, "");
    assert Quoted(x) + "" == Quoted(x);
  }

  lemma ReadMoreItems(x: string, rest: string, ys: seq<string>)
    requires QuoteFree(x)
    requires ReadItems(rest) == Some(ys)
    ensures ReadItems(Quoted(x) + (", " + rest)) == Some([x] + ys)
  {
    var tail := ", " + rest;
    ReadItemsCons(x, tail);
    assert tail[2..] == rest;
  }

  lemma {:induction false} ReadShowItems(xs: seq<string>)
    requires xs != []
    requires forall i :: 0 <= i < |xs| ==> QuoteFree(xs[i])
    ensures ReadItems(ShowItems(xs)) == Some(xs)
  {
    var x := xs[0];
    assert QuoteFree(x);
    if |xs| == 1 {
      assert ShowItems(xs) == Quoted(x);
      ReadOneItem(x);
      assert xs == [x];
    } else {
      assert ShowItems(xs) == Quoted(x) + (", " + ShowItems(xs[1..]));
      ReadShowItems(xs[1..]);
      ReadMoreItems(x, ShowItems(xs[1..]), xs[1..]);
      assert [x] + xs[1..] == xs;
    }
  }

  predicate AllQuoteFree(xs: seq<string>) {
    forall i :: 0 <= i < |xs| ==> QuoteFree(xs[i])
  }

  /** The printed list determines the list: reading it back gives every instruction, in order. */
  lemma ReadShowList(xs: seq<string>)
    requires forall i :: 0 <= i < |xs| ==> QuoteFree(xs[i])
    ensures ReadList(ShowList(xs)) == Some(xs)
  {
    var s := ShowList(xs);
    assert s[1..|s| - 1] == ShowItems(xs);
    if xs != [] {
      ReadShowItems(xs);
    }
  }
}
