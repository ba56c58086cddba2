/** Pulling the JSON object out of the provider's raw text: the handler runs
    `result.match(/\{[\s\S]*\}/)` and falls back to the whole text when the
    pattern does not match. */
module Extraction {
  import opened Elements

  /** Index of the first occurrence of `c` in `s`. */
  function FirstIndex(s: string, c: char): (r: Option<nat>)
    ensures r.Some? ==> r.value < |s| && s[r.value] == c
                        && forall k :: 0 <= k < r.value ==> s[k] != c
    ensures r.None? ==> forall k :: 0 <= k < |s| ==> s[k] != c
  {
    if s == [] then None
    else if s[0] == c then Some(0)
    else
      match FirstIndex(s[1..], c)
      case None => None
      case Some(i) => Some(i + 1)
  }

  /** Index of the last occurrence of `c` in `s`. */
  function LastIndex(s: string, c: char): (r: Option<nat>)
    ensures r.Some? ==> r.value < |s| && s[r.value] == c
                        && forall k :: r.value < k < |s| ==> s[k] != c
    ensures r.None? ==> forall k :: 0 <= k < |s| ==> s[k] != c
  {
    if s == [] then None
    else if s[|s| - 1] == c then Some(|s| - 1)
    else LastIndex(s[..|s| - 1], c)
  }

  /** `s[i..j]` is a match of `\{[\s\S]*\}`: it opens with `{`, closes with
      `}`, and anything (newlines included) lies between. */
  ghost predicate MatchAt(s: string, i: int, j: int) {
    0 <= i && i + 2 <= j <= |s| && s[i] == '{' && s[j - 1] == '}'
  }

  ghost predicate HasMatch(s: string) {
    exists i, j :: MatchAt(s, i, j)
  }

  /** `jsonMatch ? jsonMatch[0] : result`: from the first `{` to the last `}`
      when a `}` follows that `{`, else the whole text. */
  function Extract(s: string): (r: string)
    ensures |r| <= |s|
    ensures r == s || (|r| >= 2 && r[0] == '{' && r[|r| - 1] == '}')
  {
    match (FirstIndex(s, '{'), LastIndex(s, '}'))
    case (Some(i), Some(j)) => if i < j then s[i..j + 1] else s
    case _ => s
  }

  /** Extraction is the leftmost-longest match of the greedy pattern: when the
      text holds any match, the result is a match that starts no later and
      ends no earlier than every match; when it holds none, the text comes
      back unchanged. */
  lemma ExtractIsGreedyMatch(s: string)
    ensures HasMatch(s) ==>
      exists i, j :: MatchAt(s, i, j) && Extract(s) == s[i..j]
                     && forall i', j' :: MatchAt(s, i', j') ==> i <= i' && j' <= j
    ensures !HasMatch(s) ==> Extract(s) == s
  {
    var first, last := FirstIndex(s, '{'), LastIndex(s, '}');
    if first.Some? && last.Some? && first.value < last.value {
      assert MatchAt(s, first.value, last.value + 1);
    }
    if HasMatch(s) {
      var i0, j0 :| MatchAt(s, i0, j0);
      assert s[j0 - 1] == '}';
      var i, j := first.value, last.value + 1;
      assert MatchAt(s, i, j);
      forall i', j' | MatchAt(s, i', j')
        ensures i <= i' && j' <= j
      {
        assert s[i'] == '{' && s[j' - 1] == '}';
      }
    }
  }

  /** The extracted text is a contiguous piece of the response. */
  lemma ExtractIsSubstring(s: string)
    ensures exists i, j :: 0 <= i <= j <= |s| && s[i..j] == Extract(s)
  {
    ExtractIsGreedyMatch(s);
    if !HasMatch(s) {
      assert s[0..|s|] == s;
    }
  }
}
