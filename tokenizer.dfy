/**
 The separator split of the converter: the working string is cut at every
 run of whitespace and hyphen characters. Like a regular-expression split,
 it keeps the empty fragments before a leading run and after a trailing run,
 so "-one" gives ["", "one"] and " " gives ["", ""].
 */
module Tokenizer {

  /** The separator characters: the ASCII whitespace characters (space,
      tab, line feed, carriage return, form feed, vertical tab) and '-'. */
  predicate IsSeparator(c: char) {
    c == ' ' || c == '\t' || c == '\n' || c == '\r' || c == '\U{000C}' || c == '\U{000B}' || c == '-'
  }

  /** A word holds no separator character. */
  predicate SeparatorFree(s: string) {
    forall i :: 0 <= i < |s| ==> !IsSeparator(s[i])
  }

  /** The characters of s that are not separators, in order. */
  function Strip(s: string): string {
    if s == [] then []
    else if IsSeparator(s[0]) then Strip(s[1..])
    else [s[0]] + Strip(s[1..])
  }

  /** The fragments laid end to end. */
  function Concat(ws: seq<string>): string {
    if ws == [] then [] else ws[0] + Concat(ws[1..])
  }

  /** Splits s at every maximal run of separators. A separator that is
      directly followed by another one belongs to the same run. */
  function Tokenize(s: string): (r: seq<string>)
    ensures |r| >= 1
    ensures forall i :: 0 <= i < |r| ==> SeparatorFree(r[i])
    ensures forall i :: 0 < i < |r| - 1 ==> r[i] != []
    ensures s != [] && !IsSeparator(s[0]) ==> r[0] != []
    ensures Concat(r) == Strip(s)
  {
    if s == [] then [[]]
    else if IsSeparator(s[0]) then
      if |s| > 1 && IsSeparator(s[1]) then Tokenize(s[1..]) else [[]] + Tokenize(s[1..])
    else
      var t := Tokenize(s[1..]);
      [[s[0]] + t[0]] + t[1..]
  }

  /** The words joined with single spaces (the form a list input takes). */
  function Join(ws: seq<string>): string {
    if ws == [] then []
    else if |ws| == 1 then ws[0]
    else ws[0] + " " + Join(ws[1..])
  }

  /** Joining two non-empty lists is joining each and putting a space between. */
  lemma {:induction false} JoinAppend(a: seq<string>, b: seq<string>)
    requires |a| > 0 && |b| > 0
    ensures Join(a + b) == Join(a) + " " + Join(b)
    decreases |a|
  {
    assert (a + b)[0] == a[0] && (a + b)[1..] == a[1..] + b;
    if |a| > 1 {
      JoinAppend(a[1..], b);
    }
  }

  /** A separator-free word is a single token. */
  lemma {:induction false} TokenizeWord(w: string)
    requires SeparatorFree(w)
    ensures Tokenize(w) == [w]
  {
    if w != [] {
      TokenizeWord(w[1..]);
      assert [w[0]] + w[1..] == w;
    }
  }

  /** A word followed by a run of separators is split off as one token,
      whatever the run is made of and however long it is. */
  lemma {:induction false} TokenizeWordThenRun(w: string, run: string, rest: string)
    requires SeparatorFree(w)
    requires |run| > 0 && forall i :: 0 <= i < |run| ==> IsSeparator(run[i])
    requires rest == [] || !IsSeparator(rest[0])
    ensures Tokenize(w + run + rest) == [w] + Tokenize(rest)
  {
    if w == [] {
      assert w + run + rest == run + rest;
      RunThenRest(run, rest);
    } else {
      var s := w + run + rest;
      assert s[0] == w[0] && s[1..] == w[1..] + run + rest;
      TokenizeWordThenRun(w[1..], run, rest);
      assert [w[0]] + w[1..] == w;
    }
  }

  /** A leading run of separators yields one empty token. */
  lemma {:induction false} RunThenRest(run: string, rest: string)
    requires |run| > 0 && forall i :: 0 <= i < |run| ==> IsSeparator(run[i])
    requires rest == [] || !IsSeparator(rest[0])
    ensures Tokenize(run + rest) == [[]] + Tokenize(rest)
  {
    var s := run + rest;
    assert s[0] == run[0] && s[1..] == run[1..] + rest;
    if |run| > 1 {
      RunThenRest(run[1..], rest);
    }
  }

  /** Splitting undoes joining with single spaces: a list of non-empty,
      separator-free words comes back unchanged. */
  lemma {:induction false} TokenizeJoin(ws: seq<string>)
    requires |ws| > 0
    requires forall i :: 0 <= i < |ws| ==> ws[i] != [] && SeparatorFree(ws[i])
    ensures Tokenize(Join(ws)) == ws
  {
    if |ws| == 1 {
      TokenizeWord(ws[0]);
    } else {
      var rest := Join(ws[1..]);
      JoinStartsWithWord(ws[1..]);
      TokenizeWordThenRun(ws[0], " ", rest);
      TokenizeJoin(ws[1..]);
    }
  }

  lemma {:induction false} JoinStartsWithWord(ws: seq<string>)
    requires |ws| > 0 && ws[0] != []
    ensures Join(ws) != [] && Join(ws)[0] == ws[0][0]
  {
  }

  /** The two strings differ at most in which separator characters they use. */
  predicate SameShape(s: string, t: string) {
    |s| == |t| &&
    forall i :: 0 <= i < |s| ==> (IsSeparator(s[i]) <==> IsSeparator(t[i])) && (!IsSeparator(s[i]) ==> s[i] == t[i])
  }

  /** Two strings that differ only in which separator characters they use
      split into the same tokens: hyphens and whitespace are interchangeable. */
  lemma {:induction false} SeparatorsInterchangeable(s: string, t: string)
    requires SameShape(s, t)
    ensures Tokenize(s) == Tokenize(t)
  {
    if s != [] {
      assert SameShape(s[1..], t[1..]) by {
        forall i | 0 <= i < |s| - 1 ensures s[1..][i] == s[i + 1] && t[1..][i] == t[i + 1] {
        }
      }
      SeparatorsInterchangeable(s[1..], t[1..]);
    }
  }
}
