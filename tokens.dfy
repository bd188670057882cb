/**
 * Splitting an instruction into words, as Python's `str.split()` with no
 * argument does: maximal runs of non-whitespace characters, in order.
 */
module Tokens {

  predicate IsSpace(c: char) {
    c == ' ' || c == '\t' || c == '\n' || c == '\r'
  }

  /** No whitespace anywhere in `s` (the empty string included). */
  predicate SpaceFree(s: string) {
    forall i :: 0 <= i < |s| ==> !IsSpace(s[i])
  }

  /** What `split()` can produce: a non-empty run without whitespace. */
  predicate IsWord(w: string) {
    |w| > 0 && SpaceFree(w)
  }

  predicate AllWords(ws: seq<string>) {
    forall i :: 0 <= i < |ws| ==> IsWord(ws[i])
  }

  /** Length of the longest whitespace-free prefix of `s`. */
  function WordLen(s: string): (n: nat)
    ensures n <= |s|
    ensures SpaceFree(s[..n])
    ensures n == |s| || IsSpace(s[n])
  {
    if s == [] || IsSpace(s[0]) then 0
    else
      var n := 1 + WordLen(s[1..]);
      assert s[..n] == [s[0]] + s[1..][..n - 1];
      n
  }

  /** The words of `s`, left to right; whitespace only separates them. */
  function Words(s: string): (ws: seq<string>)
    ensures AllWords(ws)
    ensures s == [] ==> ws == []
    decreases |s|
  {
    if s == [] then []
    else if IsSpace(s[0]) then Words(s[1..])
    else
      var n := WordLen(s);
      [s[..n]] + Words(s[n..])
  }

  /** The words joined by single spaces: the way every instruction in the tests is written. */
  function Unwords(ws: seq<string>): string {
    if ws == [] then ""
    else if |ws| == 1 then ws[0]
    else ws[0] + " " + Unwords(ws[1..])
  }

  lemma {:induction false} WordLenOfPrefix(w: string, t: string)
    requires SpaceFree(w)
    requires t == [] || IsSpace(t[0])
    ensures WordLen(w + t) == |w|
  {
    if w != [] {
      assert (w + t)[1..] == w[1..] + t;
      WordLenOfPrefix(w[1..], t);
    }
  }

  /** A blank in front is dropped: leading and repeated whitespace yields no empty word. */
  lemma WordsSkipsSpace(c: char, s: string)
    requires IsSpace(c)
    ensures Words([c] + s) == Words(s)
  {
    assert ([c] + s)[1..] == s;
  }

  /** A word followed by a blank is the first word, and splitting goes on after the blank. */
  lemma WordsTakesWord(w: string, c: char, s: string)
    requires IsWord(w) && IsSpace(c)
    ensures Words(w + [c] + s) == [w] + Words(s)
  {
    var t := w + [c] + s;
    assert t == w + ([c] + s);
    WordLenOfPrefix(w, [c] + s);
    assert t[0] == w[0];
    assert t[..|w|] == w;
    assert t[|w|..] == [c] + s;
    WordsSkipsSpace(c, s);
  }

  /** Splitting undoes joining:`Unwords(ws).split() == ws` for any list of words. */
  lemma {:induction false} WordsUnwords(ws: seq<string>)
    requires AllWords(ws)
    ensures Words(Unwords(ws)) == ws
  {
    if ws == [] {
    } else if |ws| == 1 {
      var w := ws[0];
      assert IsWord(w);
      WordLenOfPrefix(w, []);
      assert w + [] == w;
      assert w[..|w|] == w && w[|w|..] == [];
    } else {
      var w, rest := ws[0], Unwords(ws[1..]);
      var s := w + " " + rest;
      assert IsWord(w);
      assert s == w + (" " + rest);
      WordLenOfPrefix(w, " " + rest);
      assert s[..|w|] == w;
      assert s[|w|..] == " " + rest;
      assert (" " + rest)[1..] == rest;
      assert AllWords(ws[1..]);
      WordsUnwords(ws[1..]);
    }
  }
}
