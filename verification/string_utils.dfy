/**
 * The string operations the verifier borrows from the JDK and from Apache
 * commons-lang: `Character.isWhitespace`, `StringUtils.isBlank`, and
 * `String.replaceFirst` with an empty replacement. Prefix tests
 * (`String.startsWith`) are Dafny's sequence prefix `p <= s`.
 */
module StringUtils {
  import opened Wrappers

  /**
   * Character.isWhitespace as of Java 8 (Unicode 6.2): the Unicode space,
   * line and paragraph separators except the three no-break spaces, and the
   * control characters U+0009 to U+000D and U+001C to U+001F.
   */
  predicate IsWhitespace(c: char) {
    ('\t' <= c <= '\r') || ('\U{001C}' <= c <= ' ')
    || c == '\U{1680}' || c == '\U{180E}'
    || ('\U{2000}' <= c <= '\U{200A}' && c != '\U{2007}')
    || c == '\U{2028}' || c == '\U{2029}' || c == '\U{205F}' || c == '\U{3000}'
  }

  /** StringUtils.isBlank: null, empty, or whitespace only. */
  predicate IsBlank(s: Option<string>) {
    match s
    case None => true
    case Some(str) => forall i :: 0 <= i < |str| ==> IsWhitespace(str[i])
  }

  /** `t` occurs in `s` starting at index `i`. */
  predicate OccursAt(s: string, t: string, i: nat) {
    i + |t| <= |s| && s[i..i + |t|] == t
  }

  /** The index of the first occurrence of `t` in `s` (String.indexOf), or None. */
  function FirstOccurrence(s: string, t: string): (r: Option<nat>)
    ensures r.Some? ==> OccursAt(s, t, r.value)
    ensures r.Some? ==> forall j: nat :: j < r.value ==> !OccursAt(s, t, j)
    ensures r.None? ==> forall j: nat :: !OccursAt(s, t, j)
    decreases |s|
  {
    if t <= s then Some(0)
    else if |s| <= |t| then None
    else
      OccursAtTail(s, t);
      match FirstOccurrence(s[1..], t)
      case None => None
      case Some(i) => Some(i + 1)
  }

  /** Occurrences in the tail of `s` are the occurrences in `s` one index further on. */
  lemma OccursAtTail(s: string, t: string)
    requires s != []
    ensures forall k: nat :: 1 <= k ==> (OccursAt(s, t, k) <==> OccursAt(s[1..], t, k - 1))
  {
    forall k: nat | 1 <= k
      ensures OccursAt(s, t, k) <==> OccursAt(s[1..], t, k - 1)
    {
      if k + |t| <= |s| {
        assert s[k..k + |t|] == s[1..][k - 1..k - 1 + |t|];
      }
    }
  }

  /**
   * s.replaceFirst(t, ""), reading `t` as a literal string: the first
   * occurrence of `t` is cut out; `s` is unchanged when `t` does not occur.
   */
  function RemoveFirst(s: string, t: string): string {
    match FirstOccurrence(s, t)
    case None => s
    case Some(i) => s[..i] + s[i + |t|..]
  }

  /** A string that starts with `t` loses exactly that prefix. */
  lemma RemoveFirstOfPrefix(s: string, t: string)
    requires t <= s
    ensures RemoveFirst(s, t) == s[|t|..]
  {
    assert OccursAt(s, t, 0);
  }

  /** A string in which `t` never occurs comes back unchanged. */
  lemma RemoveFirstAbsent(s: string, t: string)
    requires forall j: nat :: !OccursAt(s, t, j)
    ensures RemoveFirst(s, t) == s
  {
  }
}
