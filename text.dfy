/**
 * The two string operations the request layer relies on: Python's
 * `str.split()` with no separator (used to count tokens) and `str.lower()`
 * (used to recognise the "user" role), plus `str.startswith`.
 */
module Text {

  /** Python's `str.isspace()` characters: the separators `str.split()` uses
      when it is given no separator. */
  predicate IsSpace(c: char) {
    ('\t' <= c <= '\r') || ('\U{1C}' <= c <= '\U{1F}') || c == ' '
    || c == '\U{85}' || c == '\U{A0}' || c == '\U{1680}'
    || ('\U{2000}' <= c <= '\U{200A}') || c == '\U{2028}' || c == '\U{2029}'
    || c == '\U{202F}' || c == '\U{205F}' || c == '\U{3000}'
  }

  /** A word as `str.split()` produces it: non-empty, no whitespace. */
  predicate IsWord(w: string) {
    |w| > 0 && forall i :: 0 <= i < |w| ==> !IsSpace(w[i])
  }

  predicate IsBlank(s: string) {
    forall i :: 0 <= i < |s| ==> IsSpace(s[i])
  }

  /** Length of the longest whitespace prefix of `s`. */
  function SpaceRun(s: string): (n: nat)
    ensures n <= |s|
    ensures forall i :: 0 <= i < n ==> IsSpace(s[i])
    ensures n < |s| ==> !IsSpace(s[n])
  {
    if s == [] || !IsSpace(s[0]) then 0 else 1 + SpaceRun(s[1..])
  }

  /** Length of the longest whitespace-free prefix of `s`. */
  function WordRun(s: string): (n: nat)
    ensures n <= |s|
    ensures forall i :: 0 <= i < n ==> !IsSpace(s[i])
    ensures n < |s| ==> IsSpace(s[n])
  {
    if s == [] || IsSpace(s[0]) then 0 else 1 + WordRun(s[1..])
  }

  /** `s.split()`: the maximal whitespace-free runs of `s`, in order. */
  function Words(s: string): (ws: seq<string>)
    ensures forall k :: 0 <= k < |ws| ==> IsWord(ws[k])
    decreases |s|
  {
    var t := s[SpaceRun(s)..];
    if t == [] then []
    else
      var n := WordRun(t);
      [t[..n]] + Words(t[n..])
  }

  /** `" ".join(ws)`: the reference against which `Words` is checked. */
  function JoinWords(ws: seq<string>): string {
    if |ws| == 0 then ""
    else if |ws| == 1 then ws[0]
    else ws[0] + " " + JoinWords(ws[1..])
  }

  /** The words of `ws` glued together with nothing between them. */
  function Concat(ws: seq<string>): string {
    if ws == [] then "" else ws[0] + Concat(ws[1..])
  }

  /** `s` with every whitespace character deleted. */
  function Squeeze(s: string): string {
    if s == [] then ""
    else (if IsSpace(s[0]) then "" else [s[0]]) + Squeeze(s[1..])
  }

  /** `len(s.split())`, the approximate token count of the chat endpoints. */
  function WordCount(s: string): (n: nat)
    ensures n == 0 <==> IsBlank(s)
  {
    WordsEmptyIffBlank(s);
    |Words(s)|
  }

  /** `str.startswith`. */
  predicate StartsWith(s: string, prefix: string) {
    prefix <= s
  }

  function LowerChar(c: char): char {
    if 'A' <= c <= 'Z' then (c as int + 32) as char else c
  }

  /** `str.lower()` on ASCII letters; every other character is kept. No
      character outside ASCII lower-cases to one of 'u', 's', 'e', 'r', so
      comparing the result with "user" agrees with Python. */
  function Lower(s: string): (r: string)
    ensures |r| == |s|
    ensures forall i :: 0 <= i < |s| ==> r[i] == LowerChar(s[i])
  {
    seq(|s|, i requires 0 <= i < |s| => LowerChar(s[i]))
  }

  // ---------------------------------------------------------------------
  // Properties of Words
  // ---------------------------------------------------------------------

  /** A string has no words exactly when it is all whitespace. */
  lemma WordsEmptyIffBlank(s: string)
    ensures Words(s) == [] <==> IsBlank(s)
  {
  }

  /** Leading whitespace is skipped. */
  lemma WordsSkipSpace(c: char, x: string)
    requires IsSpace(c)
    ensures Words([c] + x) == Words(x)
  {
    var s := [c] + x;
    assert s[1..] == x;
    assert SpaceRun(s) == 1 + SpaceRun(x);
    assert s[SpaceRun(s)..] == x[SpaceRun(x)..];
  }

  /** A word followed by whitespace (or nothing) is split off whole. */
  lemma WordsSplitWord(w: string, rest: string)
    requires IsWord(w)
    requires rest == [] || IsSpace(rest[0])
    ensures Words(w + rest) == [w] + Words(rest)
  {
    var s := w + rest;
    assert !IsSpace(s[0]);
    assert SpaceRun(s) == 0;
    assert s[0..] == s;
    var n := WordRun(s);
    assert forall i :: 0 <= i < |w| ==> s[i] == w[i];
    assert |w| < |s| ==> s[|w|] == rest[0];
    assert n == |w|;
    assert s[..n] == w && s[n..] == rest;
  }

  /** Round trip: splitting words joined by single spaces gives them back,
      so `WordCount(JoinWords(ws)) == |ws|`. */
  lemma {:induction false} WordsOfJoin(ws: seq<string>)
    requires forall k :: 0 <= k < |ws| ==> IsWord(ws[k])
    ensures Words(JoinWords(ws)) == ws
  {
    if |ws| == 0 {
    } else if |ws| == 1 {
      WordsSplitWord(ws[0], "");
      assert ws[0] + "" == ws[0];
    } else {
      var tail := JoinWords(ws[1..]);
      assert JoinWords(ws) == ws[0] + ([' '] + tail);
      WordsSplitWord(ws[0], [' '] + tail);
      WordsSkipSpace(' ', tail);
      WordsOfJoin(ws[1..]);
    }
  }

  lemma {:induction false} SqueezeAppend(a: string, b: string)
    ensures Squeeze(a + b) == Squeeze(a) + Squeeze(b)
  {
    if a == [] {
      assert a + b == b;
    } else {
      assert (a + b)[1..] == a[1..] + b;
      SqueezeAppend(a[1..], b);
    }
  }

  lemma {:induction false} SqueezeBlank(s: string)
    requires IsBlank(s)
    ensures Squeeze(s) == ""
  {
    if s != [] {
      SqueezeBlank(s[1..]);
    }
  }

  lemma {:induction false} SqueezeWord(s: string)
    requires forall i :: 0 <= i < |s| ==> !IsSpace(s[i])
    ensures Squeeze(s) == s
  {
    if s != [] {
      SqueezeWord(s[1..]);
      assert [s[0]] + s[1..] == s;
    }
  }

  /** Squeezing ignores the leading whitespace. */
  lemma SqueezeSkipsSpaces(s: string)
    ensures Squeeze(s) == Squeeze(s[SpaceRun(s)..])
  {
    var n := SpaceRun(s);
    assert s == s[..n] + s[n..];
    SqueezeAppend(s[..n], s[n..]);
    SqueezeBlank(s[..n]);
  }

  /** Squeezing keeps a leading word whole. */
  lemma SqueezeKeepsWord(t: string)
    ensures Squeeze(t) == t[..WordRun(t)] + Squeeze(t[WordRun(t)..])
  {
    var m := WordRun(t);
    assert t == t[..m] + t[m..];
    SqueezeAppend(t[..m], t[m..]);
    SqueezeWord(t[..m]);
  }

  /** One step of `Words` on a string that has a word left. */
  lemma WordsStep(s: string)
    requires SpaceRun(s) < |s|
    ensures var t := s[SpaceRun(s)..];
      Words(s) == [t[..WordRun(t)]] + Words(t[WordRun(t)..])
  {
  }

  lemma ConcatCons(w: string, ws: seq<string>)
    ensures Concat([w] + ws) == w + Concat(ws)
  {
    assert ([w] + ws)[1..] == ws;
  }

  /** No character is lost or reordered: the words, put back together,
      are exactly the non-whitespace characters of `s`. */
  lemma {:induction false} WordsKeepEveryNonSpace(s: string)
    ensures Concat(Words(s)) == Squeeze(s)
    decreases |s|
  {
    var t := s[SpaceRun(s)..];
    SqueezeSkipsSpaces(s);
    if t != [] {
      var m := WordRun(t);
      WordsStep(s);
      SqueezeKeepsWord(t);
      WordsKeepEveryNonSpace(t[m..]);
      ConcatCons(t[..m], Words(t[m..]));
    }
  }

  // ---------------------------------------------------------------------
  // Properties of Lower
  // ---------------------------------------------------------------------

  /** `role.lower() == "user"` holds exactly for the sixteen spellings of
      "user" in any mix of upper and lower case. */
  lemma UserInAnyCase(role: string)
    ensures Lower(role) == "user" <==>
      |role| == 4
      && (role[0] == 'u' || role[0] == 'U') && (role[1] == 's' || role[1] == 'S')
      && (role[2] == 'e' || role[2] == 'E') && (role[3] == 'r' || role[3] == 'R')
  {
    if Lower(role) == "user" {
      assert LowerChar(role[0]) == 'u' && LowerChar(role[1]) == 's';
      assert LowerChar(role[2]) == 'e' && LowerChar(role[3]) == 'r';
    }
  }
}
