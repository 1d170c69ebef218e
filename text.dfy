// Text helpers of the JavaScript runtime that the views rely on:
// `String.prototype.trim` and splitting/joining on a one-character separator.

module Text {

  /** The characters `trim` removes: ECMAScript WhiteSpace and LineTerminator. */
  predicate IsWhitespace(c: char) {
    || c == '\t' || c == '\n' || c == '\U{000B}' || c == '\U{000C}' || c == '\r' || c == ' '
    || c == '\U{00A0}' || c == '\U{1680}' || ('\U{2000}' <= c <= '\U{200A}')
    || c == '\U{2028}' || c == '\U{2029}' || c == '\U{202F}' || c == '\U{205F}'
    || c == '\U{3000}' || c == '\U{FEFF}'
  }

  /** Neither end of `s` is whitespace. */
  predicate Unpadded(s: string) {
    s == [] || (!IsWhitespace(s[0]) && !IsWhitespace(s[|s| - 1]))
  }

  /** The length of the whitespace run that starts `s`. */
  function LeadingWhitespace(s: string): (n: nat)
    ensures n <= |s|
    ensures forall i :: 0 <= i < n ==> IsWhitespace(s[i])
    ensures n < |s| ==> !IsWhitespace(s[n])
  {
    if s != [] && IsWhitespace(s[0]) then 1 + LeadingWhitespace(s[1..]) else 0
  }

  /** Where the whitespace run that ends `s` begins. */
  function TrailingWhitespaceStart(s: string): (n: nat)
    ensures n <= |s|
    ensures forall i :: n <= i < |s| ==> IsWhitespace(s[i])
    ensures 0 < n ==> !IsWhitespace(s[n - 1])
  {
    if s != [] && IsWhitespace(s[|s| - 1]) then TrailingWhitespaceStart(s[..|s| - 1]) else |s|
  }

  /**
   * `s.trim()`: the infix of `s` between its leading and its trailing
   * whitespace; every character outside it is whitespace.
   */
  function Trim(s: string): (r: string)
    ensures Unpadded(r)
    ensures var i := LeadingWhitespace(s);
            && i + |r| <= |s| && r == s[i..i + |r|]
            && (forall k :: 0 <= k < i ==> IsWhitespace(s[k]))
            && (forall k :: i + |r| <= k < |s| ==> IsWhitespace(s[k]))
  {
    var i := LeadingWhitespace(s);
    var j := TrailingWhitespaceStart(s[i..]);
    TrimmedSlice(s, i, j);
    s[i..][..j]
  }

  /** The slice `trim` keeps lies between two whitespace runs and has none at either end. */
  lemma TrimmedSlice(s: string, i: nat, j: nat)
    requires i == LeadingWhitespace(s) && j == TrailingWhitespaceStart(s[i..])
    ensures var r := s[i..][..j];
            && Unpadded(r)
            && i + |r| <= |s| && r == s[i..i + |r|]
            && (forall k :: i + |r| <= k < |s| ==> IsWhitespace(s[k]))
  {
    var a := s[i..];
    var r := a[..j];
    assert r != [] ==> r[0] == s[i] && r[|r| - 1] == a[j - 1];
    assert forall k :: i + j <= k < |s| ==> s[k] == a[k - i];
  }

  /** Trimming text that has no whitespace at either end leaves it unchanged. */
  lemma TrimUnpadded(s: string)
    requires Unpadded(s)
    ensures Trim(s) == s
  {
  }

  /** `trim` is idempotent. */
  lemma TrimIdempotent(s: string)
    ensures Trim(Trim(s)) == Trim(s)
  {
    TrimUnpadded(Trim(s));
  }

  /** The parts joined with one separator character between consecutive parts. */
  function Join(parts: seq<string>, sep: char): string {
    if |parts| == 0 then ""
    else if |parts| == 1 then parts[0]
    else parts[0] + [sep] + Join(parts[1..], sep)
  }

  /** `s.split(sep)` for a one-character separator (so `""` splits into `[""]`). */
  function Split(s: string, sep: char): (r: seq<string>)
    ensures |r| >= 1
  {
    if s == [] then [[]]
    else
      var rest := Split(s[1..], sep);
      if s[0] == sep then [[]] + rest else [[s[0]] + rest[0]] + rest[1..]
  }

  lemma {:induction false} SplitWithoutSeparator(t: string, sep: char)
    requires sep !in t
    ensures Split(t, sep) == [t]
  {
    if t != [] {
      assert t[0] in t;
      SplitWithoutSeparator(t[1..], sep);
      assert [t[0]] + t[1..] == t;
    }
  }

  lemma {:induction false} SplitAfterFirstPart(t: string, sep: char, u: string)
    requires sep !in t
    ensures Split(t + [sep] + u, sep) == [t] + Split(u, sep)
  {
    if t == [] {
      assert t + [sep] + u == [sep] + u;
      assert ([sep] + u)[1..] == u;
    } else {
      SplitAfterFirstPart(t[1..], sep, u);
      assert (t + [sep] + u)[1..] == t[1..] + [sep] + u;
      assert [t[0]] + t[1..] == t;
    }
  }

  /** Splitting undoes joining when no part contains the separator. */
  lemma {:induction false} SplitJoin(parts: seq<string>, sep: char)
    requires |parts| >= 1
    requires forall k :: 0 <= k < |parts| ==> sep !in parts[k]
    ensures Split(Join(parts, sep), sep) == parts
  {
    if |parts| == 1 {
      SplitWithoutSeparator(parts[0], sep);
    } else {
      SplitJoin(parts[1..], sep);
      SplitAfterFirstPart(parts[0], sep, Join(parts[1..], sep));
    }
  }

  lemma {:induction false} JoinHasNoSeparator(parts: seq<string>, sep: char, other: char)
    requires other != sep
    requires forall k :: 0 <= k < |parts| ==> other !in parts[k]
    ensures other !in Join(parts, sep)
  {
    if |parts| > 1 {
      JoinHasNoSeparator(parts[1..], sep, other);
    }
  }
}
