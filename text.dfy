/**
 * String scanning shared by the model: substring search (`String.prototype.includes`
 * and the alternations of simple regular expressions), ASCII case folding, the
 * ECMAScript white-space classes and `String.prototype.trim`.
 */
module Text {
  import opened Common

  /** ASCII case folding: the canonicalisation a case-insensitive regular expression
      without the `u` flag applies, restricted to what can equal an ASCII letter. */
  function Fold(c: char): char
  {
    if 'A' <= c <= 'Z' then (c as int + 32) as char else c
  }

  predicate SameChar(a: char, b: char, ignoreCase: bool)
  {
    if ignoreCase then Fold(a) == Fold(b) else a == b
  }

  /** `sub` occurs in `s` at index `i` (letter case ignored when `ignoreCase`). */
  predicate MatchesAt(s: string, sub: string, i: nat, ignoreCase: bool)
  {
    i + |sub| <= |s| && forall k :: 0 <= k < |sub| ==> SameChar(s[i + k], sub[k], ignoreCase)
  }

  /** `sub` occurs somewhere in `s`. */
  ghost predicate Contains(s: string, sub: string, ignoreCase: bool)
  {
    exists i: nat :: MatchesAt(s, sub, i, ignoreCase)
  }

  /** The leftmost position in `from..bound` where `holds` is true: how a regular expression search tries positions. */
  function FirstWhere(holds: nat -> bool, from: nat, bound: nat): (r: Option<nat>)
    requires from <= bound + 1
    ensures r.Some? ==> from <= r.value <= bound && holds(r.value)
    ensures r.Some? ==> forall p: nat :: from <= p < r.value ==> !holds(p)
    ensures r.None? ==> forall p: nat :: from <= p <= bound ==> !holds(p)
    decreases bound + 1 - from
  {
    if from > bound then None
    else if holds(from) then Some(from)
    else FirstWhere(holds, from + 1, bound)
  }

  /** The leftmost index at which `sub` occurs in `s`. */
  function FirstMatch(s: string, sub: string, ignoreCase: bool): (r: Option<nat>)
    ensures r.Some? ==> MatchesAt(s, sub, r.value, ignoreCase)
    ensures r.Some? ==> forall j: nat :: j < r.value ==> !MatchesAt(s, sub, j, ignoreCase)
    ensures r.None? ==> !Contains(s, sub, ignoreCase)
  {
    var holds := (p: nat) => MatchesAt(s, sub, p, ignoreCase);
    assert forall p: nat :: holds(p) == MatchesAt(s, sub, p, ignoreCase);
    FirstWhere(holds, 0, |s|)
  }

  /** `String.prototype.includes` (and `RegExp.prototype.test` for a literal pattern). */
  function Includes(s: string, sub: string, ignoreCase: bool): (r: bool)
    ensures r <==> Contains(s, sub, ignoreCase)
  {
    FirstMatch(s, sub, ignoreCase).Some?
  }

  /** A case-sensitive occurrence is also a case-insensitive one. */
  lemma ExactMatchIgnoringCase(s: string, sub: string, i: nat)
    requires MatchesAt(s, sub, i, false)
    ensures MatchesAt(s, sub, i, true)
  {
  }

  /** A text that contains `sub` in its exact letter case also contains it ignoring case. */
  lemma {:induction false} ExactContainsIgnoringCase(s: string, sub: string)
    ensures Contains(s, sub, false) ==> Contains(s, sub, true)
  {
    if Contains(s, sub, false) {
      var i: nat :| MatchesAt(s, sub, i, false);
      ExactMatchIgnoringCase(s, sub, i);
    }
  }

  /** A piece of a piece is a piece: an occurrence of `outer` carries every occurrence of its own infixes. */
  lemma {:induction false} InfixOccurrence(s: string, outer: string, inner: string, i: nat, j: nat, ignoreCase: bool)
    requires MatchesAt(s, outer, i, ignoreCase)
    requires MatchesAt(outer, inner, j, false)
    ensures MatchesAt(s, inner, i + j, ignoreCase)
  {
    forall k | 0 <= k < |inner|
      ensures SameChar(s[i + j + k], inner[k], ignoreCase)
    {
      assert SameChar(s[i + (j + k)], outer[j + k], ignoreCase);
    }
  }

  /** ECMAScript LineTerminator: what `.` does not match without the `s` flag. */
  predicate IsLineTerminator(c: char)
  {
    c == '\n' || c == '\r' || c == '\U{2028}' || c == '\U{2029}'
  }

  /** ECMAScript WhiteSpace or LineTerminator: the class `\s`, and what `trim` removes. */
  predicate IsWhiteSpace(c: char)
  {
    || IsLineTerminator(c)
    || c == '\t' || c == '\U{000B}' || c == '\U{000C}' || c == ' '
    || c == '\U{00A0}' || c == '\U{1680}' || ('\U{2000}' <= c <= '\U{200A}')
    || c == '\U{202F}' || c == '\U{205F}' || c == '\U{3000}' || c == '\U{FEFF}'
  }

  ghost predicate AllWhiteSpace(s: string)
  {
    forall k :: 0 <= k < |s| ==> IsWhiteSpace(s[k])
  }

  /** How many white-space characters `s` starts with. */
  function LeadingWhiteSpace(s: string): (n: nat)
    ensures n <= |s|
    ensures forall k :: 0 <= k < n ==> IsWhiteSpace(s[k])
    ensures n < |s| ==> !IsWhiteSpace(s[n])
  {
    if s == [] || !IsWhiteSpace(s[0]) then 0
    else
      var m := LeadingWhiteSpace(s[1..]);
      assert forall k :: 1 <= k < 1 + m ==> s[k] == s[1..][k - 1];
      1 + m
  }

  /** How long `s` is without its trailing white space. */
  function KeptBeforeWhiteSpace(s: string): (n: nat)
    ensures n <= |s|
    ensures forall k :: n <= k < |s| ==> IsWhiteSpace(s[k])
    ensures n > 0 ==> !IsWhiteSpace(s[n - 1])
  {
    if s == [] || !IsWhiteSpace(s[|s| - 1]) then |s|
    else KeptBeforeWhiteSpace(s[..|s| - 1])
  }

  /** Drops the leading white space. */
  function TrimStart(s: string): string
  {
    s[LeadingWhiteSpace(s)..]
  }

  /** Drops the trailing white space. */
  function TrimEnd(s: string): string
  {
    s[..KeptBeforeWhiteSpace(s)]
  }

  /** `String.prototype.trim`. */
  function Trim(s: string): string
  {
    TrimEnd(TrimStart(s))
  }

  /**
   * `trim` cuts only white space, and only from the two ends: it keeps the
   * infix between the last leading and the first trailing white space, which
   * starts and ends with a character that is not white space.
   */
  lemma {:induction false} TrimIsInfix(s: string)
    ensures var i := LeadingWhiteSpace(s);
      var j := i + KeptBeforeWhiteSpace(s[i..]);
      && j <= |s| && Trim(s) == s[i..j]
      && (forall k :: 0 <= k < i ==> IsWhiteSpace(s[k]))
      && (forall k :: j <= k < |s| ==> IsWhiteSpace(s[k]))
      && (i < j ==> !IsWhiteSpace(s[i]) && !IsWhiteSpace(s[j - 1]))
  {
    var i := LeadingWhiteSpace(s);
    var t := s[i..];
    var n := KeptBeforeWhiteSpace(t);
    assert t[..n] == s[i..i + n];
    forall k | i + n <= k < |s| ensures IsWhiteSpace(s[k]) {
      assert s[k] == t[k - i];
    }
    if 0 < n {
      assert s[i + n - 1] == t[n - 1];
    }
  }

  /** A slice of a string without line terminators has none. */
  lemma {:induction false} SliceKeepsOneLine(s: string, i: nat, j: nat)
    requires i <= j <= |s|
    requires forall k :: 0 <= k < |s| ==> !IsLineTerminator(s[k])
    ensures forall k :: 0 <= k < j - i ==> !IsLineTerminator(s[i..j][k])
  {
    forall k | 0 <= k < j - i ensures !IsLineTerminator(s[i..j][k]) {
      assert s[i..j][k] == s[i + k];
    }
  }

  /** A string without line terminators has none after `trim`. */
  lemma {:induction false} TrimKeepsOneLine(s: string)
    requires forall k :: 0 <= k < |s| ==> !IsLineTerminator(s[k])
    ensures forall k :: 0 <= k < |Trim(s)| ==> !IsLineTerminator(Trim(s)[k])
  {
    TrimIsInfix(s);
    var i := LeadingWhiteSpace(s);
    SliceKeepsOneLine(s, i, i + KeptBeforeWhiteSpace(s[i..]));
  }

  /** White space in front adds exactly its own length to the leading white space. */
  lemma {:induction false} LeadingWhiteSpaceAfter(w: string, t: string)
    requires AllWhiteSpace(w)
    ensures LeadingWhiteSpace(w + t) == |w| + LeadingWhiteSpace(t)
  {
    if w != [] {
      assert (w + t)[0] == w[0] && (w + t)[1..] == w[1..] + t;
      assert AllWhiteSpace(w[1..]) by {
        forall k | 0 <= k < |w| - 1 ensures IsWhiteSpace(w[1..][k]) { assert w[1..][k] == w[k + 1]; }
      }
      LeadingWhiteSpaceAfter(w[1..], t);
    } else {
      assert w + t == t;
    }
  }

  /** Leading white space makes no difference to `trimStart`. */
  lemma {:induction false} TrimStartSkipsWhiteSpace(w: string, t: string)
    requires AllWhiteSpace(w)
    ensures TrimStart(w + t) == TrimStart(t)
  {
    LeadingWhiteSpaceAfter(w, t);
    assert (w + t)[|w| + LeadingWhiteSpace(t)..] == t[LeadingWhiteSpace(t)..];
  }

  /** `trim` of a suffix that only cut off white space is `trim` of the whole. */
  lemma {:induction false} TrimAfterWhiteSpace(s: string, q: nat, b: nat)
    requires q <= b <= |s|
    requires forall i :: q <= i < b ==> IsWhiteSpace(s[i])
    ensures Trim(s[b..]) == Trim(s[q..])
  {
    var w := s[q..b];
    assert AllWhiteSpace(w) by {
      forall i | 0 <= i < b - q ensures IsWhiteSpace(w[i]) { assert w[i] == s[q + i]; }
    }
    assert s[q..] == w + s[b..];
    TrimStartSkipsWhiteSpace(w, s[b..]);
  }
}
