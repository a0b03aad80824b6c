/**
 * The string operations the peer server applies to a request path:
 * Go's `strings.HasPrefix` and `strings.SplitN(s, sep, 2)` for a one-byte
 * separator, with the index search they are built on.
 */
module Paths {
  import opened Wrappers

  /** Go's `strings.HasPrefix(s, prefix)`: long enough and agreeing on the first bytes. */
  function HasPrefix(s: string, prefix: string): (b: bool)
    ensures b <==> prefix <= s
  {
    |prefix| <= |s| && s[..|prefix|] == prefix
  }

  /** The position of the first occurrence of `c` in `s`, if any (Go's `strings.IndexByte`). */
  function FirstIndex(s: string, c: char): (r: Option<nat>)
    ensures r.None? <==> c !in s
    ensures r.Some? ==> r.value < |s| && s[r.value] == c && c !in s[..r.value]
  {
    if |s| == 0 then None
    else if s[0] == c then Some(0)
    else
      match FirstIndex(s[1..], c)
      case None => None
      case Some(i) =>
        assert s[..i + 1] == [s[0]] + s[1..][..i];
        Some(i + 1)
  }

  /**
   * Go's `strings.SplitN(s, string([sep]), 2)`: split at the FIRST separator
   * only, so the second part keeps every later separator. Without a
   * separator (the empty string included) the result is the one-part `[s]`.
   */
  function SplitOnce(s: string, sep: char): (parts: seq<string>)
    ensures 1 <= |parts| <= 2
    ensures |parts| == 1 <==> sep !in s
    ensures |parts| == 1 ==> parts[0] == s
    ensures |parts| == 2 ==> s == parts[0] + [sep] + parts[1] && sep !in parts[0]
  {
    match FirstIndex(s, sep)
    case None => [s]
    case Some(i) =>
      assert s == s[..i] + [sep] + s[i + 1..];
      [s[..i], s[i + 1..]]
  }

  /**
   * Splitting is the inverse of joining with one separator whose left part
   * is separator-free: the split lands on the joining separator whatever
   * the right part contains.
   */
  lemma SplitOnceJoin(a: string, sep: char, b: string)
    requires sep !in a
    ensures SplitOnce(a + [sep] + b, sep) == [a, b]
  {
    var s := a + [sep] + b;
    var parts := SplitOnce(s, sep);
    assert s[|a|] == sep;
    assert parts[0] == s[..|a|] == a;
    assert parts[1] == s[|a| + 1..] == b;
  }
}
