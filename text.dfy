/**
 * Splitting strings at a separator character: the reading side used to
 * show that the strings the client writes (endpoint, Cookie header,
 * authorization header) can be taken apart again.
 */
module Text {
  import opened Ruby

  /**
   * The text before the first `sep` in `s` and the text after it, or None
   * when `sep` does not occur.
   */
  function SplitAt(s: string, sep: char): (r: Option<(string, string)>)
    ensures r.Some? ==> s == r.value.0 + [sep] + r.value.1 && sep !in r.value.0
    ensures r.None? <==> sep !in s
  {
    if s == [] then None
    else if s[0] == sep then Some(([], s[1..]))
    else match SplitAt(s[1..], sep)
      case None => None
      case Some(parts) => Some(([s[0]] + parts.0, parts.1))
  }

  /** Splitting at the first separator recovers a prefix free of it. */
  lemma {:induction false} SplitAtJoin(before: string, sep: char, after: string)
    requires sep !in before
    ensures SplitAt(before + [sep] + after, sep) == Some((before, after))
  {
    var s := before + [sep] + after;
    if before != [] {
      assert s[0] == before[0] && s[0] != sep;
      assert s[1..] == before[1..] + [sep] + after;
      SplitAtJoin(before[1..], sep, after);
      assert [before[0]] + before[1..] == before;
    } else {
      assert s[0] == sep && s[1..] == after;
    }
  }
}
