/** The parts of Go's `strings` package and string comparison that the
    program relies on. A Go string is a byte sequence; here it is a
    `string` whose characters stand for those bytes, and `<` on characters
    stands for `<` on bytes (for valid UTF-8 the two orders agree). */
module GoStrings {

  /** strings.HasSuffix(s, suffix) */
  predicate HasSuffix(s: string, suffix: string) {
    |suffix| <= |s| && s[|s| - |suffix|..] == suffix
  }

  /** strings.TrimSuffix: drops `suffix` once if `s` ends with it, otherwise
      returns `s` unchanged. */
  function TrimSuffix(s: string, suffix: string): (r: string)
    ensures HasSuffix(s, suffix) ==> r + suffix == s
    ensures !HasSuffix(s, suffix) ==> r == s
  {
    if HasSuffix(s, suffix) then
      assert s[..|s| - |suffix|] + s[|s| - |suffix|..] == s;
      s[..|s| - |suffix|]
    else s
  }

  /** Every string ends with the empty string, so trimming it is the identity. */
  lemma TrimEmptySuffix(s: string)
    ensures HasSuffix(s, "") && TrimSuffix(s, "") == s
  {
  }

  /** Trimming a suffix and putting it back gives the original; the trimmed
      string is the only one that does. */
  lemma TrimSuffixUnique(s: string, suffix: string, x: string)
    requires x + suffix == s
    ensures HasSuffix(s, suffix) && TrimSuffix(s, suffix) == x
  {
  }

  /** Go's `a <= b` on strings: lexicographic order on the elements, a proper
      prefix coming first. */
  predicate LexLe(a: string, b: string)
    decreases |a|
  {
    |a| == 0 || (|b| > 0 && (a[0] < b[0] || (a[0] == b[0] && LexLe(a[1..], b[1..]))))
  }

  lemma {:induction false} LexLeReflexive(a: string)
    ensures LexLe(a, a)
    decreases |a|
  {
    if |a| > 0 { LexLeReflexive(a[1..]); }
  }

  lemma {:induction false} LexLeTotal(a: string, b: string)
    ensures LexLe(a, b) || LexLe(b, a)
    decreases |a|
  {
    if |a| > 0 && |b| > 0 && a[0] == b[0] { LexLeTotal(a[1..], b[1..]); }
  }

  lemma {:induction false} LexLeAntisymmetric(a: string, b: string)
    requires LexLe(a, b) && LexLe(b, a)
    ensures a == b
    decreases |a|
  {
    if |a| > 0 {
      LexLeAntisymmetric(a[1..], b[1..]);
      assert a == [a[0]] + a[1..] && b == [b[0]] + b[1..];
    }
  }

  lemma {:induction false} LexLeTransitive(a: string, b: string, c: string)
    requires LexLe(a, b) && LexLe(b, c)
    ensures LexLe(a, c)
    decreases |a|
  {
    if |a| > 0 && a[0] == b[0] && b[0] == c[0] { LexLeTransitive(a[1..], b[1..], c[1..]); }
  }
}
