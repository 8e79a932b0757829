/**
 * The parts of the .NET string library that the client relies on:
 * `Char.IsWhiteSpace`, `String.Trim`, `String.StartsWith` and
 * `String.Substring`, over `string` = `seq<char>`.
 */
module Strings {

  /**
   * `Char.IsWhiteSpace`: the Unicode space separators (category Zs),
   * the line and paragraph separators, U+0009..U+000D, U+0085 and U+00A0.
   */
  predicate IsWhiteSpace(c: char) {
    || c == ' '
    || ('\t' <= c <= '\r')
    || c == '\U{0085}'
    || c == '\U{00A0}'
    || c == '\U{1680}'
    || ('\U{2000}' <= c <= '\U{200A}')
    || c == '\U{2028}'
    || c == '\U{2029}'
    || c == '\U{202F}'
    || c == '\U{205F}'
    || c == '\U{3000}'
  }

  /** Every character of `s` is white space. */
  predicate AllWhiteSpace(s: string) {
    forall i :: 0 <= i < |s| ==> IsWhiteSpace(s[i])
  }

  /** `s.Trim()`: `s` without its leading and trailing white space (see `TrimShape`). */
  function Trim(s: string): string
    decreases |s|
  {
    if s != [] && IsWhiteSpace(s[0]) then Trim(s[1..])
    else if s != [] && IsWhiteSpace(s[|s| - 1]) then Trim(s[..|s| - 1])
    else s
  }

  /** `s` is white space up to `k`, then `Trim(s)`, then white space to the end. */
  lemma {:induction false} TrimShape(s: string) returns (k: nat)
    ensures k + |Trim(s)| <= |s| && Trim(s) == s[k..k + |Trim(s)|]
    ensures AllWhiteSpace(s[..k]) && AllWhiteSpace(s[k + |Trim(s)|..])
    decreases |s|
  {
    if s != [] && IsWhiteSpace(s[0]) {
      var j := TrimShape(s[1..]);
      k := j + 1;
      ShapeAfterLeading(s, j, Trim(s));
    } else if s != [] && IsWhiteSpace(s[|s| - 1]) {
      k := TrimShape(s[..|s| - 1]);
      ShapeAfterTrailing(s, k, Trim(s));
    } else {
      k := 0;
      assert s[0..|s|] == s;
    }
  }

  /** A white-space character in front of a trimmed shape extends its leading part. */
  lemma ShapeAfterLeading(s: string, j: nat, r: string)
    requires s != [] && IsWhiteSpace(s[0])
    requires j + |r| <= |s| - 1 && r == s[1..][j..j + |r|]
    requires AllWhiteSpace(s[1..][..j]) && AllWhiteSpace(s[1..][j + |r|..])
    ensures r == s[j + 1..j + 1 + |r|]
    ensures AllWhiteSpace(s[..j + 1]) && AllWhiteSpace(s[j + 1 + |r|..])
  {
    assert s[..j + 1] == [s[0]] + s[1..][..j];
    assert s[j + 1 + |r|..] == s[1..][j + |r|..];
  }

  /** A white-space character behind a trimmed shape extends its trailing part. */
  lemma ShapeAfterTrailing(s: string, k: nat, r: string)
    requires s != [] && IsWhiteSpace(s[|s| - 1])
    requires k + |r| <= |s| - 1 && r == s[..|s| - 1][k..k + |r|]
    requires AllWhiteSpace(s[..|s| - 1][..k]) && AllWhiteSpace(s[..|s| - 1][k + |r|..])
    ensures r == s[k..k + |r|]
    ensures AllWhiteSpace(s[..k]) && AllWhiteSpace(s[k + |r|..])
  {
    assert s[..k] == s[..|s| - 1][..k];
    assert s[k + |r|..] == s[..|s| - 1][k + |r|..] + [s[|s| - 1]];
  }

  /** `Trim(s)` neither starts nor ends with white space. */
  lemma {:induction false} TrimEndsWithoutWhiteSpace(s: string)
    ensures Trim(s) == [] || (!IsWhiteSpace(Trim(s)[0]) && !IsWhiteSpace(Trim(s)[|Trim(s)| - 1]))
    decreases |s|
  {
    if s != [] && IsWhiteSpace(s[0]) {
      TrimEndsWithoutWhiteSpace(s[1..]);
    } else if s != [] && IsWhiteSpace(s[|s| - 1]) {
      TrimEndsWithoutWhiteSpace(s[..|s| - 1]);
    }
  }

  /** `s.StartsWith(prefix)`, compared character by character. */
  predicate StartsWith(s: string, prefix: string) {
    prefix <= s
  }

  /** A string trims to the empty string exactly when it is all white space. */
  lemma {:induction false} TrimEmptyIffAllWhiteSpace(s: string)
    ensures Trim(s) == "" <==> AllWhiteSpace(s)
    decreases |s|
  {
    if s != [] && IsWhiteSpace(s[0]) {
      TrimEmptyIffAllWhiteSpace(s[1..]);
      assert forall i :: 1 <= i < |s| ==> s[i] == s[1..][i - 1];
    } else if s != [] && IsWhiteSpace(s[|s| - 1]) {
      var t := s[..|s| - 1];
      TrimEmptyIffAllWhiteSpace(t);
      assert t[0] == s[0];
    }
  }

  /** Trimming ignores a trailing line terminator, as written by `AppendLine`. */
  lemma {:induction false} TrimIgnoresNewline(s: string)
    ensures Trim(s + "\n") == Trim(s)
    decreases |s|
  {
    var t := s + "\n";
    if s != [] && IsWhiteSpace(s[0]) {
      assert t[1..] == s[1..] + "\n";
      TrimIgnoresNewline(s[1..]);
    } else if s == [] {
      assert t[1..] == [];
    } else {
      assert t[..|t| - 1] == s;
    }
  }
}
