/**
 * The few .NET `System.String` members that `Product.FormattedImageUrl` uses,
 * with ordinal (character-by-character) comparison.
 */
module Strings {
  import opened Wrappers

  /** `s.StartsWith(prefix)`. */
  predicate StartsWith(s: string, prefix: string) {
    |prefix| <= |s| && s[..|prefix|] == prefix
  }

  /** `sep` occurs in `s` starting at position `i`. */
  predicate MatchAt(s: string, sep: string, i: nat) {
    i + |sep| <= |s| && s[i..i + |sep|] == sep
  }

  /** The first position at or after `from` where a non-empty `sep` occurs, as `s.IndexOf(sep, from)` finds it; `Split` uses it to find each separator. */
  function IndexOf(s: string, sep: string, from: nat): (r: Option<nat>)
    requires |sep| > 0
    ensures r.Some? ==> from <= r.value && MatchAt(s, sep, r.value)
    ensures r.Some? ==> forall j :: from <= j < r.value ==> !MatchAt(s, sep, j)
    ensures r.None? ==> forall j :: from <= j ==> !MatchAt(s, sep, j)
    decreases |s| - from
  {
    if from + |sep| > |s| then None
    else if s[from..from + |sep|] == sep then Some(from)
    else IndexOf(s, sep, from + 1)
  }

  /**
   * `s.Split(sep)` with the default options: the pieces between successive
   * non-overlapping occurrences of `sep`, scanned left to right, empty pieces kept.
   * An empty separator leaves the string whole.
   */
  function Split(s: string, sep: string): (r: seq<string>)
    ensures |r| >= 1
    ensures |sep| == 0 || IndexOf(s, sep, 0).None? ==> r == [s]
    ensures |sep| > 0 && IndexOf(s, sep, 0).Some? ==> |r| >= 2 && r[0] == s[..IndexOf(s, sep, 0).value]
    decreases |s|
  {
    if |sep| == 0 then [s]
    else match IndexOf(s, sep, 0)
      case None => [s]
      case Some(i) => [s[..i]] + Split(s[i + |sep|..], sep)
  }

  /** The first piece of a split contains no occurrence of the separator, and ends where one begins. */
  lemma FirstPieceOfSplit(s: string, sep: string)
    requires |sep| > 0
    ensures var p := Split(s, sep)[0];
            p <= s && (forall j: nat :: !MatchAt(p, sep, j)) && (|p| == |s| || MatchAt(s, sep, |p|))
  {
    var p := Split(s, sep)[0];
    forall j: nat ensures !MatchAt(p, sep, j) {
      if MatchAt(p, sep, j) && IndexOf(s, sep, 0).Some? {
        assert p[j..j + |sep|] == s[j..j + |sep|];
        assert MatchAt(s, sep, j);
      }
    }
  }
}
