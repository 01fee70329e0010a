/**
 * The two string operations the line format relies on: trimming white space
 * from both ends (the host's `String.Trim()`), and left-aligning in a field
 * (`{0,-w}` in a composite format string).
 */
module Text {

  /**
   * The characters the host runtime treats as white space: the control
   * characters U+0009..U+000D, U+0085, and the Unicode space, line and
   * paragraph separators.
   */
  predicate IsWhiteSpace(c: char) {
    || ('\t' <= c <= '\r')
    || c == ' ' || c == '\U{0085}' || c == '\U{00A0}' || c == '\U{1680}'
    || ('\U{2000}' <= c <= '\U{200A}')
    || c == '\U{2028}' || c == '\U{2029}' || c == '\U{202F}' || c == '\U{205F}' || c == '\U{3000}'
  }

  /** Drops leading white space: what remains is a suffix that starts with a non-space. */
  function TrimStart(s: string): (r: string)
    ensures |r| <= |s| && r == s[|s| - |r|..]
    ensures forall i :: 0 <= i < |s| - |r| ==> IsWhiteSpace(s[i])
    ensures r != [] ==> !IsWhiteSpace(r[0])
  {
    if s != [] && IsWhiteSpace(s[0]) then TrimStart(s[1..]) else s
  }

  /** Drops trailing white space: what remains is a prefix that ends with a non-space. */
  function TrimEnd(s: string): (r: string)
    ensures |r| <= |s| && r == s[..|r|]
    ensures forall i :: |r| <= i < |s| ==> IsWhiteSpace(s[i])
    ensures r != [] ==> !IsWhiteSpace(r[|r| - 1])
  {
    if s != [] && IsWhiteSpace(s[|s| - 1]) then TrimEnd(s[..|s| - 1]) else s
  }

  /**
   * Both ends trimmed: the result is the infix s[i..i + |r|] of `s`, everything
   * outside it is white space, and it neither starts nor ends with white space.
   */
  function Trim(s: string): (r: string)
    ensures |r| <= |TrimStart(s)| <= |s|
    ensures var i := |s| - |TrimStart(s)|; r == s[i..i + |r|]
    ensures var i := |s| - |TrimStart(s)|;
      forall k :: 0 <= k < |s| && !(i <= k < i + |r|) ==> IsWhiteSpace(s[k])
    ensures r != [] ==> !IsWhiteSpace(r[0]) && !IsWhiteSpace(r[|r| - 1])
  {
    TrimEnd(TrimStart(s))
  }

  /** Trimming a trimmed string changes nothing. */
  lemma TrimIdempotent(s: string)
    ensures Trim(Trim(s)) == Trim(s)
  {
    var r := Trim(s);
    assert TrimStart(r) == r;
    assert TrimEnd(r) == r;
  }

  /** The trimmed text is the only white-space-framed infix with non-space ends. */
  lemma {:induction false} TrimUnique(s: string, i: nat, j: nat)
    requires i <= j <= |s|
    requires forall k :: 0 <= k < i ==> IsWhiteSpace(s[k])
    requires forall k :: j <= k < |s| ==> IsWhiteSpace(s[k])
    requires i < j ==> !IsWhiteSpace(s[i]) && !IsWhiteSpace(s[j - 1])
    ensures Trim(s) == s[i..j]
  {
    if i == j {
      TrimAllWhiteSpace(s, i);
    } else {
      TrimStartUnique(s, i);
      TrimEndOfSuffix(s, i, j);
    }
  }

  lemma TrimEndOfSuffix(s: string, i: nat, j: nat)
    requires i < j <= |s|
    requires forall k :: j <= k < |s| ==> IsWhiteSpace(s[k])
    requires !IsWhiteSpace(s[j - 1])
    ensures TrimEnd(s[i..]) == s[i..j]
  {
    var t := s[i..];
    forall k | j - i <= k < |t| ensures IsWhiteSpace(t[k]) {
      assert t[k] == s[k + i];
    }
    TrimEndUnique(t, j - i);
    assert t[..j - i] == s[i..j];
  }

  lemma TrimAllWhiteSpace(s: string, i: nat)
    requires i <= |s|
    requires forall k :: 0 <= k < i ==> IsWhiteSpace(s[k])
    requires forall k :: i <= k < |s| ==> IsWhiteSpace(s[k])
    ensures Trim(s) == []
  {
    TrimStartUnique(s, |s|);
  }

  lemma {:induction false} TrimStartUnique(s: string, i: nat)
    requires i <= |s|
    requires forall k :: 0 <= k < i ==> IsWhiteSpace(s[k])
    requires i < |s| ==> !IsWhiteSpace(s[i])
    ensures TrimStart(s) == s[i..]
    decreases i
  {
    if i > 0 {
      TrimStartUnique(s[1..], i - 1);
      assert s[1..][i - 1..] == s[i..];
    }
  }

  lemma {:induction false} TrimEndUnique(s: string, j: nat)
    requires j <= |s|
    requires forall k :: j <= k < |s| ==> IsWhiteSpace(s[k])
    requires j > 0 ==> !IsWhiteSpace(s[j - 1])
    ensures TrimEnd(s) == s[..j]
    decreases |s| - j
  {
    if j < |s| {
      TrimEndUnique(s[..|s| - 1], j);
      assert s[..|s| - 1][..j] == s[..j];
    }
  }

  function Spaces(n: nat): (r: string)
    ensures |r| == n && forall i :: 0 <= i < n ==> r[i] == ' '
  {
    seq(n, _ => ' ')
  }

  /**
   * `s` left-aligned in a field of `width` characters: padded on the right
   * with spaces when shorter, left whole (never cut) when longer.
   */
  function PadRight(s: string, width: nat): (r: string)
    ensures |r| == if |s| < width then width else |s|
    ensures r[..|s|] == s
    ensures forall i :: |s| <= i < |r| ==> r[i] == ' '
  {
    if |s| < width then s + Spaces(width - |s|) else s
  }
}
