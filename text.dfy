/**
 * The two Python string operations the converter relies on: `str.split()`
 * with no separator, which yields the rank token of a location group name,
 * and `str.lower()`, which normalises attribute names.
 */
module Text {

  /** The characters for which Python's `str.isspace()` holds. */
  predicate IsSpace(c: char) {
    || '\t' <= c <= '\r'
    || '\U{1C}' <= c <= ' '
    || c == '\U{85}' || c == '\U{A0}' || c == '\U{1680}'
    || '\U{2000}' <= c <= '\U{200A}'
    || c == '\U{2028}' || c == '\U{2029}' || c == '\U{202F}' || c == '\U{205F}' || c == '\U{3000}'
  }

  /** A token of `str.split()`: non-empty, with no white space in it. */
  predicate IsWord(w: string) {
    w != [] && forall k :: 0 <= k < |w| ==> !IsSpace(w[k])
  }

  /** The words of `ws` run together. */
  function Concat(ws: seq<string>): string {
    if ws == [] then [] else ws[0] + Concat(ws[1..])
  }

  /** The words of `ws` joined by single spaces, as Python's `' '.join(ws)`. */
  function Join(ws: seq<string>): string {
    if ws == [] then []
    else if |ws| == 1 then ws[0]
    else ws[0] + " " + Join(ws[1..])
  }

  /** `s` with every white-space character removed. */
  function RemoveSpaces(s: string): string {
    if s == [] then []
    else (if IsSpace(s[0]) then [] else [s[0]]) + RemoveSpaces(s[1..])
  }

  /**
   * Python's `s.split()`: the maximal runs of non-space characters of `s`, in
   * order; leading, trailing and repeated white space yield no empty tokens.
   */
  function Split(s: string): (r: seq<string>)
    ensures forall i :: 0 <= i < |r| ==> IsWord(r[i])
    ensures Concat(r) == RemoveSpaces(s)
  {
    SplitFrom(s, [])
  }

  /** Splits `s`, where `word` is the part of a token already read. */
  function SplitFrom(s: string, word: string): (r: seq<string>)
    requires forall k :: 0 <= k < |word| ==> !IsSpace(word[k])
    ensures forall i :: 0 <= i < |r| ==> IsWord(r[i])
    ensures Concat(r) == word + RemoveSpaces(s)
    decreases |s|
  {
    if s == [] then
      (if word == [] then [] else [word])
    else if IsSpace(s[0]) then
      var rest := SplitFrom(s[1..], []);
      assert Concat([word] + rest) == word + Concat(rest) by {
        assert ([word] + rest)[1..] == rest;
      }
      if word == [] then rest else [word] + rest
    else
      var r := SplitFrom(s[1..], word + [s[0]]);
      assert (word + [s[0]]) + RemoveSpaces(s[1..]) == word + ([s[0]] + RemoveSpaces(s[1..]));
      r
  }

  /** Reading a run of non-space characters only extends the current token. */
  lemma {:induction false} SplitFromWord(w: string, rest: string, word: string)
    requires forall k :: 0 <= k < |word| ==> !IsSpace(word[k])
    requires forall k :: 0 <= k < |w| ==> !IsSpace(w[k])
    ensures SplitFrom(w + rest, word) == SplitFrom(rest, word + w)
    decreases |w|
  {
    if w != [] {
      assert (w + rest)[0] == w[0];
      assert (w + rest)[1..] == w[1..] + rest;
      SplitFromWord(w[1..], rest, word + [w[0]]);
      assert (word + [w[0]]) + w[1..] == word + w;
    } else {
      assert w + rest == rest;
      assert word + w == word;
    }
  }

  /** Splitting words joined by single spaces gives the words back. */
  lemma {:induction false} SplitJoin(ws: seq<string>)
    requires forall i :: 0 <= i < |ws| ==> IsWord(ws[i])
    ensures Split(Join(ws)) == ws
  {
    if ws == [] {
    } else if |ws| == 1 {
      SplitFromWord(ws[0], [], []);
      assert ws[0] + [] == ws[0];
      assert [] + ws[0] == ws[0];
    } else {
      var tail := " " + Join(ws[1..]);
      assert Join(ws) == ws[0] + tail;
      SplitFromWord(ws[0], tail, []);
      assert [] + ws[0] == ws[0];
      assert tail[0] == ' ' && tail[1..] == Join(ws[1..]);
      SplitJoin(ws[1..]);
      assert ws == [ws[0]] + ws[1..];
    }
  }

  /** A stretch of white space, possibly empty. */
  predicate IsGap(sep: string) {
    forall k :: 0 <= k < |sep| ==> IsSpace(sep[k])
  }

  /** `seps[0] + ws[0] + seps[1] + ... + ws[n - 1] + seps[n]`: the words with a gap before, between and after them. */
  function Interleave(ws: seq<string>, seps: seq<string>): string
    requires |seps| == |ws| + 1
    decreases |ws|
  {
    seps[0] + (if ws == [] then [] else ws[0] + Interleave(ws[1..], seps[1..]))
  }

  /** Leading white space yields no token. */
  lemma {:induction false} SplitFromGap(sep: string, rest: string)
    requires IsGap(sep)
    ensures SplitFrom(sep + rest, []) == SplitFrom(rest, [])
    decreases |sep|
  {
    if sep != [] {
      assert (sep + rest)[0] == sep[0];
      assert (sep + rest)[1..] == sep[1..] + rest;
      SplitFromGap(sep[1..], rest);
    } else {
      assert sep + rest == rest;
    }
  }

  /** A token read in full ends at the end of the input or at white space. */
  lemma SplitFromAfterWord(w: string, rest: string)
    requires IsWord(w) && (rest == [] || IsSpace(rest[0]))
    ensures SplitFrom(rest, w) == [w] + SplitFrom(rest, [])
  {
  }

  /**
   * For a string built this way, words separated by runs of white space with
   * optional white space at either end, the tokens of `split()` are exactly
   * the words, however long the gaps and whatever white space they hold.
   */
  lemma {:induction false} SplitInterleave(ws: seq<string>, seps: seq<string>)
    requires |seps| == |ws| + 1
    requires forall i :: 0 <= i < |ws| ==> IsWord(ws[i])
    requires forall i :: 0 <= i < |seps| ==> IsGap(seps[i])
    requires forall i :: 0 < i < |ws| ==> seps[i] != []
    ensures Split(Interleave(ws, seps)) == ws
    decreases |ws|
  {
    var tail := if ws == [] then [] else ws[0] + Interleave(ws[1..], seps[1..]);
    SplitFromGap(seps[0], tail);
    if ws != [] {
      var y := Interleave(ws[1..], seps[1..]);
      SplitFromWord(ws[0], y, []);
      assert [] + ws[0] == ws[0];
      if ws[1..] != [] {
        assert seps[1] != [];
        assert y[0] == seps[1][0];
      } else {
        assert y == seps[1] + [];
      }
      SplitFromAfterWord(ws[0], y);
      SplitInterleave(ws[1..], seps[1..]);
      assert ws == [ws[0]] + ws[1..];
    }
  }

  /** Python's `str.lower()` on one character (ASCII letters only). */
  function LowerChar(c: char): char {
    if 'A' <= c <= 'Z' then (c as int + 32) as char else c
  }

  /** Python's `s.lower()`, applied character by character. */
  function ToLower(s: string): (r: string)
    ensures |r| == |s|
    ensures forall i :: 0 <= i < |s| ==> r[i] == LowerChar(s[i])
    ensures forall i :: 0 <= i < |s| && 'A' <= s[i] <= 'Z' ==> r[i] as int == s[i] as int + 32
    ensures forall i :: 0 <= i < |s| && !('A' <= s[i] <= 'Z') ==> r[i] == s[i]
    ensures forall i :: 0 <= i < |r| ==> !('A' <= r[i] <= 'Z')
  {
    seq(|s|, i requires 0 <= i < |s| => LowerChar(s[i]))
  }
}
