/**
 * The java.util.regex patterns the generator uses all have the shape
 * `open(.*?)close` with literal `open` and `close`. Matcher.find on such a
 * pattern is the leftmost position where `open` occurs and a lazy group can
 * reach the first `close` after it; without DOTALL the group may not cross a
 * line terminator. The next find resumes where the previous match ended.
 */
module LazyRegex {
  import opened Wrappers
  import opened JavaString

  /** The chars `.` does not match unless DOTALL is on (java.util.regex.Pattern). */
  predicate IsLineTerminator(c: char) {
    c == '\n' || c == '\r' || c == '\U{0085}' || c == '\U{2028}' || c == '\U{2029}'
  }

  /** Every char of `s` can be matched by `.` */
  predicate DotMatches(s: string, dotAll: bool) {
    dotAll || forall i :: 0 <= i < |s| ==> !IsLineTerminator(s[i])
  }

  lemma DotMatchesPrefix(s: string, a: nat, q: nat, q': nat, dotAll: bool)
    requires a <= q <= q' <= |s|
    requires DotMatches(s[a..q'], dotAll)
    ensures DotMatches(s[a..q], dotAll)
  {
    if !dotAll {
      forall i | 0 <= i < q - a
        ensures !IsLineTerminator(s[a..q][i])
      {
        assert s[a..q][i] == s[a..q'][i];
      }
    }
  }

  /**
   * `open(.*?)close` tried at position `p`: the index where the group's closing
   * literal starts. The lazy group stops at the first `close` after `open`.
   */
  function CloseAt(s: string, open: string, close: string, dotAll: bool, p: nat): (r: Option<nat>)
    ensures r.Some? ==> p + |open| <= r.value && r.value + |close| <= |s|
  {
    if !OccursAt(s, open, p) then None
    else
      var q := FirstOccurrence(s, close, p + |open|);
      if q >= 0 && DotMatches(s[p + |open|..q], dotAll) then Some(q) else None
  }

  /**
   * A match at `p` exists exactly when `open` occurs there and some later
   * `close` is reachable by `.`; the group then ends at the first such `close`.
   */
  lemma CloseAtMeaning(s: string, open: string, close: string, dotAll: bool, p: nat)
    ensures CloseAt(s, open, close, dotAll, p).Some? <==>
      OccursAt(s, open, p) && exists q :: p + |open| <= q && OccursAt(s, close, q) && DotMatches(s[p + |open|..q], dotAll)
    ensures CloseAt(s, open, close, dotAll, p).Some? ==>
      var q := CloseAt(s, open, close, dotAll, p).value;
      && OccursAt(s, close, q)
      && DotMatches(s[p + |open|..q], dotAll)
      && forall i :: p + |open| <= i < q ==> !OccursAt(s, close, i)
  {
    if OccursAt(s, open, p) {
      var q := FirstOccurrence(s, close, p + |open|);
      if q >= 0 && !DotMatches(s[p + |open|..q], dotAll) {
        forall q' | p + |open| <= q' && OccursAt(s, close, q')
          ensures !DotMatches(s[p + |open|..q'], dotAll)
        {
          if DotMatches(s[p + |open|..q'], dotAll) {
            DotMatchesPrefix(s, p + |open|, q, q', dotAll);
          }
        }
      }
    }
  }

  /**
   * Matcher.find from index `from`: the bounds [a, b) of group 1 of the
   * leftmost match starting at or after `from`.
   */
  function FindFrom(s: string, open: string, close: string, dotAll: bool, from: nat): (r: Option<(nat, nat)>)
    ensures r.Some? ==> from + |open| <= r.value.0 <= r.value.1 && r.value.1 + |close| <= |s|
    decreases |s| + 1 - from
  {
    if from > |s| then None
    else
      match CloseAt(s, open, close, dotAll, from)
      case Some(q) => Some((from + |open|, q))
      case None => FindFrom(s, open, close, dotAll, from + 1)
  }

  /** When FindFrom finds nothing, no position at or after `from` matches. */
  lemma {:induction false} FindFromNone(s: string, open: string, close: string, dotAll: bool, from: nat)
    requires FindFrom(s, open, close, dotAll, from).None?
    ensures forall p :: from <= p ==> CloseAt(s, open, close, dotAll, p).None?
    decreases |s| + 1 - from
  {
    if from > |s| {
      forall p | from <= p
        ensures CloseAt(s, open, close, dotAll, p).None?
      {
        assert !OccursAt(s, open, p);
      }
    } else {
      FindFromNone(s, open, close, dotAll, from + 1);
    }
  }

  /** What FindFrom finds is a match, and no position between `from` and it matches. */
  lemma {:induction false} FindFromLeftmost(s: string, open: string, close: string, dotAll: bool, from: nat, a: nat, b: nat)
    requires FindFrom(s, open, close, dotAll, from) == Some((a, b))
    ensures CloseAt(s, open, close, dotAll, a - |open|) == Some(b)
    ensures forall p :: from <= p < a - |open| ==> CloseAt(s, open, close, dotAll, p).None?
    decreases |s| + 1 - from
  {
    if CloseAt(s, open, close, dotAll, from).None? {
      FindFromLeftmost(s, open, close, dotAll, from + 1, a, b);
    }
  }

  /**
   * Group 1 of every successive Matcher.find, in order. Each find resumes
   * where the previous match ended; since these patterns have no anchors and
   * no look-behind, resuming at an index is searching the rest of the string.
   */
  function FindAll(s: string, open: string, close: string, dotAll: bool): seq<string>
    requires |open| > 0
    decreases |s|
  {
    match FindFrom(s, open, close, dotAll, 0)
    case None => []
    case Some((a, b)) => [s[a..b]] + FindAll(s[b + |close|..], open, close, dotAll)
  }

  /** Group 1 of the first Matcher.find, if there is one. */
  function FindFirst(s: string, open: string, close: string, dotAll: bool): Option<string> {
    match FindFrom(s, open, close, dotAll, 0)
    case None => None
    case Some((a, b)) => Some(s[a..b])
  }

  /** FindFirst is the group of the leftmost match of the whole string. */
  lemma FindFirstLeftmost(s: string, open: string, close: string, dotAll: bool)
    ensures FindFirst(s, open, close, dotAll).None? <==> forall p: nat :: CloseAt(s, open, close, dotAll, p).None?
    ensures FindFirst(s, open, close, dotAll).Some? ==>
      exists p: nat :: && CloseAt(s, open, close, dotAll, p).Some?
                       && (forall p': nat :: p' < p ==> CloseAt(s, open, close, dotAll, p').None?)
                       && FindFirst(s, open, close, dotAll).value == s[p + |open|..CloseAt(s, open, close, dotAll, p).value]
  {
    match FindFrom(s, open, close, dotAll, 0)
    case None =>
      FindFromNone(s, open, close, dotAll, 0);
    case Some((a, b)) =>
      FindFromLeftmost(s, open, close, dotAll, 0, a, b);
      assert CloseAt(s, open, close, dotAll, a - |open|) == Some(b);
  }

  /** A match at `p` with none before it, from `from` on, is what FindFrom finds. */
  lemma {:induction false} FindFromAt(s: string, open: string, close: string, dotAll: bool, from: nat, p: nat)
    requires from <= p && CloseAt(s, open, close, dotAll, p).Some?
    requires forall p' :: from <= p' < p ==> CloseAt(s, open, close, dotAll, p').None?
    ensures FindFrom(s, open, close, dotAll, from) == Some((p + |open|, CloseAt(s, open, close, dotAll, p).value))
    decreases p - from
  {
    if from < p {
      FindFromAt(s, open, close, dotAll, from + 1, p);
    }
  }

  /**
   * The first occurrence of `open`, followed by a `close` reachable by `.`,
   * gives FindFirst the text up to the first such `close`.
   */
  lemma FindFirstAt(s: string, open: string, close: string, dotAll: bool, p: nat, q: nat)
    requires OccursAt(s, open, p) && forall i :: 0 <= i < p ==> !OccursAt(s, open, i)
    requires p + |open| <= q && OccursAt(s, close, q)
    requires forall i :: p + |open| <= i < q ==> !OccursAt(s, close, i)
    requires DotMatches(s[p + |open|..q], dotAll)
    ensures FindFirst(s, open, close, dotAll) == Some(s[p + |open|..q])
  {
    FirstOccurrenceIs(s, close, p + |open|, q);
    FindFromAt(s, open, close, dotAll, 0, p);
  }

  /** Where the opening literal does not occur, nothing is found. */
  lemma FindAbsent(s: string, open: string, close: string, dotAll: bool)
    requires !Contains(s, open)
    ensures FindFirst(s, open, close, dotAll).None?
    ensures |open| > 0 ==> FindAll(s, open, close, dotAll) == []
  {
    FindFirstLeftmost(s, open, close, dotAll);
  }

  // ---------------------------------------------------------------------------
  // Matching a well-formed chunk
  // ---------------------------------------------------------------------------

  /**
   * A chunk `open + x + d` with a one-char closing literal `d` that `x` does not
   * contain is found as one match with group `x`, and the search resumes right
   * after it.
   */
  lemma {:induction false} FindAllChunk(open: string, x: string, d: char, rest: string, dotAll: bool)
    requires |open| > 0 && d !in x && DotMatches(x, dotAll)
    ensures FindAll(open + x + [d] + rest, open, [d], dotAll) == [x] + FindAll(rest, open, [d], dotAll)
  {
    var s := open + x + [d] + rest;
    ChunkCloses(open, x, d, rest, dotAll);
    FindAllFirst(s, open, [d], dotAll, |open| + |x|);
    assert s[|open|..|open| + |x|] == x;
    assert s[|open| + |x| + 1..] == rest;
  }

  /** A match at the very start is the first find, and the search resumes after it. */
  lemma FindAllFirst(s: string, open: string, close: string, dotAll: bool, q: nat)
    requires |open| > 0 && CloseAt(s, open, close, dotAll, 0) == Some(q)
    ensures FindAll(s, open, close, dotAll) == [s[|open|..q]] + FindAll(s[q + |close|..], open, close, dotAll)
  {
    FindFromStart(s, open, close, dotAll, q);
  }

  /** The leftmost match, at `p`, is the first find, and the search resumes after it. */
  lemma FindAllAt(s: string, open: string, close: string, dotAll: bool, p: nat, q: nat)
    requires |open| > 0 && CloseAt(s, open, close, dotAll, p) == Some(q)
    requires forall p' :: 0 <= p' < p ==> CloseAt(s, open, close, dotAll, p').None?
    ensures FindAll(s, open, close, dotAll) == [s[p + |open|..q]] + FindAll(s[q + |close|..], open, close, dotAll)
  {
    FindFromAt(s, open, close, dotAll, 0, p);
    FindAllOf(s, open, close, dotAll, p + |open|, q);
  }

  /** FindAll once the first find is known. */
  lemma FindAllOf(s: string, open: string, close: string, dotAll: bool, a: nat, b: nat)
    requires |open| > 0 && FindFrom(s, open, close, dotAll, 0) == Some((a, b))
    ensures FindAll(s, open, close, dotAll) == [s[a..b]] + FindAll(s[b + |close|..], open, close, dotAll)
  {
  }

  /** Where the closing literal does not occur, nothing is found. */
  lemma FindNoClose(s: string, open: string, close: string, dotAll: bool)
    requires !Contains(s, close)
    ensures FindFirst(s, open, close, dotAll).None?
  {
    forall p: nat
      ensures CloseAt(s, open, close, dotAll, p).None?
    {
      CloseAtMeaning(s, open, close, dotAll, p);
    }
    FindFirstLeftmost(s, open, close, dotAll);
  }

  lemma FindFromStart(s: string, open: string, close: string, dotAll: bool, q: nat)
    requires CloseAt(s, open, close, dotAll, 0) == Some(q)
    ensures FindFrom(s, open, close, dotAll, 0) == Some((|open|, q))
  {
  }

  /** The match of `open + x + d` at the start of the string closes at `d`. */
  lemma ChunkCloses(open: string, x: string, d: char, rest: string, dotAll: bool)
    requires |open| > 0 && d !in x && DotMatches(x, dotAll)
    ensures CloseAt(open + x + [d] + rest, open, [d], dotAll, 0) == Some(|open| + |x|)
  {
    var s := open + x + [d] + rest;
    assert OccursAt(s, open, 0) by {
      assert s[..|open|] == open;
    }
    forall i | |open| <= i < |open| + |x|
      ensures !OccursAt(s, [d], i)
    {
      OccursAtChar(s, d, i);
      assert s[i] == x[i - |open|];
    }
    assert OccursAt(s, [d], |open| + |x|) by {
      OccursAtChar(s, d, |open| + |x|);
    }
    FirstOccurrenceIs(s, [d], |open|, |open| + |x|);
    assert s[|open|..|open| + |x|] == x;
  }

  /** FirstOccurrence is pinned down by where the first occurrence is. */
  lemma FirstOccurrenceIs(s: string, t: string, from: nat, q: nat)
    requires from <= q && OccursAt(s, t, q)
    requires forall i :: from <= i < q ==> !OccursAt(s, t, i)
    ensures FirstOccurrence(s, t, from) == q
  {
  }
}
