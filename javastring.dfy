/**
 * The java.lang.String operations the generator relies on, with Java's own
 * semantics: `trim` strips every char up to U+0020, `substring` throws on bad
 * bounds, `split` on a one-char literal drops trailing empty pieces, `replace`
 * replaces every non-overlapping occurrence from left to right, and string
 * concatenation renders a null reference as "null".
 */
module JavaString {
  import opened Wrappers

  // ---------------------------------------------------------------------------
  // Searching
  // ---------------------------------------------------------------------------

  /** `t` occurs in `s` starting at index `i`. */
  predicate OccursAt(s: string, t: string, i: int) {
    0 <= i && i + |t| <= |s| && s[i..i + |t|] == t
  }

  /** String.contains */
  predicate Contains(s: string, t: string) {
    exists i :: 0 <= i <= |s| && OccursAt(s, t, i)
  }

  /** String.startsWith */
  predicate StartsWith(s: string, p: string) {
    OccursAt(s, p, 0)
  }

  /** String.endsWith */
  predicate EndsWith(s: string, p: string) {
    |p| <= |s| && s[|s| - |p|..] == p
  }

  /** The first index at or after `from` where `t` occurs, or -1. */
  function FirstOccurrence(s: string, t: string, from: nat): (r: int)
    ensures r == -1 || (from <= r && OccursAt(s, t, r))
    ensures forall i :: from <= i && (r == -1 || i < r) ==> !OccursAt(s, t, i)
    decreases |s| + 1 - from
  {
    if from + |t| > |s| then -1
    else if OccursAt(s, t, from) then from
    else FirstOccurrence(s, t, from + 1)
  }

  /** String.indexOf(String): the first occurrence of `t`, or -1. */
  function IndexOf(s: string, t: string): (r: int)
    ensures r >= 0 <==> Contains(s, t)
    ensures r >= 0 ==> OccursAt(s, t, r) && forall i :: 0 <= i < r ==> !OccursAt(s, t, i)
    ensures r >= -1
  {
    FirstOccurrence(s, t, 0)
  }

  /** The greatest index `<= upto` where `t` occurs, or -1. */
  function LastOccurrence(s: string, t: string, upto: int): (r: int)
    requires -1 <= upto <= |s|
    ensures r == -1 || (0 <= r <= upto && OccursAt(s, t, r))
    ensures forall i :: r < i <= upto ==> !OccursAt(s, t, i)
    decreases upto + 1
  {
    if upto < 0 then -1
    else if OccursAt(s, t, upto) then upto
    else LastOccurrence(s, t, upto - 1)
  }

  /** String.lastIndexOf(String): the last occurrence of `t`, or -1. */
  function LastIndexOf(s: string, t: string): (r: int)
    ensures r >= 0 <==> Contains(s, t)
    ensures r >= 0 ==> OccursAt(s, t, r) && forall i :: r < i <= |s| ==> !OccursAt(s, t, i)
    ensures r >= -1
  {
    LastOccurrence(s, t, |s|)
  }

  lemma OccursAtChar(s: string, c: char, i: int)
    ensures OccursAt(s, [c], i) <==> 0 <= i < |s| && s[i] == c
  {
    if 0 <= i < |s| {
      assert s[i..i + 1] == [s[i]];
    }
  }

  /** For a one-char needle, Contains is sequence membership. */
  lemma ContainsChar(s: string, c: char)
    ensures Contains(s, [c]) <==> c in s
  {
    if c in s {
      var i :| 0 <= i < |s| && s[i] == c;
      OccursAtChar(s, c, i);
    }
    if Contains(s, [c]) {
      var i :| 0 <= i <= |s| && OccursAt(s, [c], i);
      OccursAtChar(s, c, i);
    }
  }

  // ---------------------------------------------------------------------------
  // Slicing
  // ---------------------------------------------------------------------------

  /** String.substring(begin, end): throws unless 0 <= begin <= end <= length. */
  function Substring(s: string, begin: int, end: int): (r: Result<string>)
    ensures r.Ok? <==> 0 <= begin <= end <= |s|
    ensures r.Ok? ==> r.value == s[begin..end]
    ensures r.Err? ==> r.error == StringIndexOutOfBounds
  {
    if 0 <= begin <= end <= |s| then Ok(s[begin..end]) else Err(StringIndexOutOfBounds)
  }

  /** String.substring(begin) */
  function SubstringFrom(s: string, begin: int): (r: Result<string>)
    ensures r == Substring(s, begin, |s|)
  {
    Substring(s, begin, |s|)
  }

  /** substring(begin) within bounds is the rest of the string from `begin`. */
  lemma SubstringFromOk(s: string, begin: nat)
    requires begin <= |s|
    ensures SubstringFrom(s, begin) == Ok(s[begin..])
  {
    var r := SubstringFrom(s, begin);
    assert r.value == s[begin..];
    assert r == Ok(r.value);
  }

  // ---------------------------------------------------------------------------
  // Trimming
  // ---------------------------------------------------------------------------

  /** The chars String.trim removes: every code point up to and including the space. */
  predicate IsTrimmable(c: char) {
    c <= ' '
  }

  /** Neither end of `s` is a trimmable char. */
  predicate IsTrimmed(s: string) {
    s == [] || (!IsTrimmable(s[0]) && !IsTrimmable(s[|s| - 1]))
  }

  /** String.trim: the trimmable chars at either end are stripped. */
  function Trim(s: string): (r: string)
    ensures IsTrimmed(r)
    ensures |r| <= |s|
    decreases |s|
  {
    if s != [] && IsTrimmable(s[0]) then Trim(s[1..])
    else if s != [] && IsTrimmable(s[|s| - 1]) then Trim(s[..|s| - 1])
    else s
  }

  /** Trimmable padding on both sides of a trimmed string is exactly what Trim removes. */
  lemma {:induction false} TrimPadded(pre: string, s: string, post: string)
    requires forall i :: 0 <= i < |pre| ==> IsTrimmable(pre[i])
    requires forall i :: 0 <= i < |post| ==> IsTrimmable(post[i])
    requires IsTrimmed(s)
    ensures Trim(pre + s + post) == s
    decreases |pre| + |post|
  {
    var t := pre + s + post;
    if pre != [] {
      assert t[0] == pre[0];
      assert t[1..] == pre[1..] + s + post;
      TrimPadded(pre[1..], s, post);
    } else if post != [] {
      if s == [] {
        assert t[0] == post[0];
        assert t[1..] == pre + s + post[1..];
        TrimPadded(pre, s, post[1..]);
      } else {
        assert t[0] == s[0];
        assert t[|t| - 1] == post[|post| - 1];
        assert t[..|t| - 1] == pre + s + post[..|post| - 1];
        TrimPadded(pre, s, post[..|post| - 1]);
      }
    } else {
      assert t == s;
    }
  }

  /** Trimming leaves an already trimmed string alone, so Trim is idempotent. */
  lemma TrimTrimmed(s: string)
    requires IsTrimmed(s)
    ensures Trim(s) == s
  {
    TrimPadded("", s, "");
    assert "" + s + "" == s;
  }

  lemma TrimIdempotent(s: string)
    ensures Trim(Trim(s)) == Trim(s)
  {
    TrimTrimmed(Trim(s));
  }

  /** Trim keeps a block of `s`, so it brings in no char that `s` lacks. */
  lemma {:induction false} TrimDeletesNothingNew(s: string, c: char)
    requires c !in s
    ensures c !in Trim(s)
    decreases |s|
  {
    if s != [] && IsTrimmable(s[0]) {
      assert c !in s[1..];
      TrimDeletesNothingNew(s[1..], c);
    } else if s != [] && IsTrimmable(s[|s| - 1]) {
      assert c !in s[..|s| - 1];
      TrimDeletesNothingNew(s[..|s| - 1], c);
    }
  }

  // ---------------------------------------------------------------------------
  // Replacing
  // ---------------------------------------------------------------------------

  /**
   * String.replace(CharSequence, CharSequence): every occurrence of `target`,
   * scanned left to right without overlap, becomes `repl`; an empty target
   * puts `repl` before every char and at the end.
   */
  function Replace(s: string, target: string, repl: string): string
    decreases |s|
  {
    if |target| == 0 then
      if s == [] then repl else repl + [s[0]] + Replace(s[1..], target, repl)
    else if s == [] then []
    else if OccursAt(s, target, 0) then repl + Replace(s[|target|..], target, repl)
    else [s[0]] + Replace(s[1..], target, repl)
  }

  /** Replacing a one-char string by "" deletes exactly the occurrences of that char. */
  lemma {:induction false} RemoveCharDeletes(s: string, c: char)
    ensures c !in Replace(s, [c], "")
    ensures forall x :: x != c ==> (x in Replace(s, [c], "") <==> x in s)
    ensures |Replace(s, [c], "")| <= |s|
  {
    if s != [] {
      RemoveCharDeletes(s[1..], c);
      OccursAtChar(s, c, 0);
      assert s == [s[0]] + s[1..];
    }
  }

  /** A string without the target is left as it is. */
  lemma {:induction false} ReplaceAbsent(s: string, target: string, repl: string)
    requires |target| > 0 && !Contains(s, target)
    ensures Replace(s, target, repl) == s
  {
    if s != [] {
      assert !OccursAt(s, target, 0);
      forall i | 0 <= i <= |s[1..]|
        ensures !OccursAt(s[1..], target, i)
      {
        if OccursAt(s[1..], target, i) {
          assert s[i + 1..i + 1 + |target|] == s[1..][i..i + |target|];
          assert OccursAt(s, target, i + 1);
        }
      }
      ReplaceAbsent(s[1..], target, repl);
    }
  }

  /** Deleting a non-empty target never lengthens the string. */
  lemma {:induction false} RemoveShortens(s: string, target: string)
    requires |target| > 0
    ensures |Replace(s, target, "")| <= |s|
    decreases |s|
  {
    if s != [] {
      if OccursAt(s, target, 0) {
        RemoveShortens(s[|target|..], target);
      } else {
        RemoveShortens(s[1..], target);
      }
    }
  }

  // ---------------------------------------------------------------------------
  // Joining and splitting
  // ---------------------------------------------------------------------------

  /** The strings of `ss` one after another, with nothing between them. */
  function Concat(ss: seq<string>): string {
    if ss == [] then "" else Concat(ss[..|ss| - 1]) + ss[|ss| - 1]
  }

  lemma AppendAssoc(a: string, b: string, c: string)
    ensures a + b + c == a + (b + c)
  {
  }

  lemma ConcatSnoc(ss: seq<string>, s: string)
    ensures Concat(ss + [s]) == Concat(ss) + s
  {
    assert (ss + [s])[..|ss|] == ss;
  }

  /** The strings of `xs` with `sep` between neighbours and not after the last. */
  function Join(xs: seq<string>, sep: string): string {
    if |xs| == 0 then ""
    else if |xs| == 1 then xs[0]
    else xs[0] + sep + Join(xs[1..], sep)
  }

  lemma {:induction false} JoinSnoc(xs: seq<string>, x: string, sep: string)
    requires xs != []
    ensures Join(xs + [x], sep) == Join(xs, sep) + sep + x
  {
    if |xs| == 1 {
      assert (xs + [x])[1..] == [x];
    } else {
      assert (xs + [x])[1..] == xs[1..] + [x];
      JoinSnoc(xs[1..], x, sep);
    }
  }

  /** Every piece between occurrences of `c`, including empty ones at either end. */
  function Pieces(s: string, c: char): (r: seq<string>)
    ensures |r| >= 1
    ensures forall k :: 0 <= k < |r| ==> c !in r[k]
    ensures Join(r, [c]) == s
  {
    if s == [] then [""]
    else
      var rest := Pieces(s[1..], c);
      if s[0] == c then
        [""] + rest
      else
        JoinConsFirst(s[0], rest, [c]);
        [[s[0]] + rest[0]] + rest[1..]
  }

  lemma {:induction false} JoinConsFirst(x: char, rest: seq<string>, sep: string)
    requires |rest| >= 1
    ensures Join([[x] + rest[0]] + rest[1..], sep) == [x] + Join(rest, sep)
  {
    var r := [[x] + rest[0]] + rest[1..];
    if |rest| > 1 {
      assert r[1..] == rest[1..];
    }
  }

  /** Removes the empty pieces at the end, as split(regex) with limit 0 does. */
  function DropTrailingEmpty(ps: seq<string>): (r: seq<string>)
    ensures r <= ps
    ensures r == [] || r[|r| - 1] != ""
    ensures forall k :: |r| <= k < |ps| ==> ps[k] == ""
  {
    if ps != [] && ps[|ps| - 1] == "" then DropTrailingEmpty(ps[..|ps| - 1]) else ps
  }

  /**
   * String.split on a one-char literal: with no occurrence the whole string
   * (even an empty one) is the only piece; otherwise the pieces between
   * occurrences with trailing empty pieces dropped.
   */
  function Split(s: string, c: char): (r: seq<string>)
    ensures forall k :: 0 <= k < |r| ==> c !in r[k]
    ensures c in s ==> r == [] || r[|r| - 1] != ""
    ensures c !in s ==> r == [s]
    ensures |Join(r, [c])| <= |s| && s[..|Join(r, [c])|] == Join(r, [c])
    ensures forall i :: |Join(r, [c])| <= i < |s| ==> s[i] == c
  {
    if c !in s then [s]
    else
      var ps := Pieces(s, c);
      var r := DropTrailingEmpty(ps);
      JoinDroppedPrefix(ps, r, c);
      r
  }

  /** Dropping empty pieces from the end removes only trailing separators from the join. */
  lemma {:induction false} JoinDroppedPrefix(ps: seq<string>, r: seq<string>, c: char)
    requires r <= ps
    requires forall k :: |r| <= k < |ps| ==> ps[k] == ""
    ensures |Join(r, [c])| <= |Join(ps, [c])|
    ensures Join(ps, [c])[..|Join(r, [c])|] == Join(r, [c])
    ensures forall i :: |Join(r, [c])| <= i < |Join(ps, [c])| ==> Join(ps, [c])[i] == c
    decreases |ps|
  {
    if |r| < |ps| {
      var init := ps[..|ps| - 1];
      assert r <= init;
      JoinDroppedPrefix(init, r, c);
      if init == [] {
        assert ps == [""];
      } else {
        assert ps[|ps| - 1] == "";
        assert ps == init + [""];
        JoinSnoc(init, "", [c]);
        var jr, ji := Join(r, [c]), Join(init, [c]);
        assert Join(ps, [c]) == ji + [c];
        assert (ji + [c])[..|jr|] == ji[..|jr|];
        forall i | |jr| <= i < |ji| + 1
          ensures (ji + [c])[i] == c
        {
          if i < |ji| {
            assert (ji + [c])[i] == ji[i];
          }
        }
      }
    } else {
      assert r == ps;
    }
  }

  /** A first piece free of `c`, then `c`: the first piece is split off. */
  lemma {:induction false} PiecesCons(a: string, c: char, rest: string)
    requires c !in a
    ensures Pieces(a + [c] + rest, c) == [a] + Pieces(rest, c)
  {
    var s := a + [c] + rest;
    if a == [] {
      assert s[0] == c && s[1..] == rest;
    } else {
      assert s[0] == a[0] && s[1..] == a[1..] + [c] + rest;
      PiecesCons(a[1..], c, rest);
      assert [a[0]] + a[1..] == a;
    }
  }

  /** Text free of `c` up to the end or to a `c` is the first piece. */
  lemma {:induction false} PiecesFirst(v: string, c: char, tail: string)
    requires c !in v && (tail == [] || tail[0] == c)
    ensures Pieces(v + tail, c)[0] == v
  {
    var s := v + tail;
    if v == [] {
      assert s == tail;
    } else {
      assert s[0] == v[0] && s[1..] == v[1..] + tail;
      PiecesFirst(v[1..], c, tail);
      assert [v[0]] + v[1..] == v;
    }
  }

  /**
   * `a c v …` with `a` and a non-empty `v` free of `c`, and `v` ending at `c`
   * or at the end: split gives `a` and `v` as its first two pieces.
   */
  lemma SplitFirstTwo(a: string, c: char, v: string, tail: string)
    requires c !in a && c !in v && v != [] && (tail == [] || tail[0] == c)
    ensures var r := Split(a + [c] + v + tail, c);
      |r| >= 2 && r[0] == a && r[1] == v
  {
    var s := a + [c] + v + tail;
    assert s == a + [c] + (v + tail);
    assert s[|a|] == c;
    PiecesCons(a, c, v + tail);
    PiecesFirst(v, c, tail);
    var ps := Pieces(s, c);
    assert ps[1] == v;
  }

  /** `a c` with `a` free of `c`: split drops the empty piece after `c` and leaves `a` alone. */
  lemma SplitTrailing(a: string, c: char)
    requires c !in a
    ensures Split(a + [c], c) == (if a == [] then [] else [a])
  {
    var s := a + [c];
    assert s == a + [c] + [];
    assert s[|a|] == c;
    PiecesCons(a, c, []);
    assert Pieces(s, c) == [a, ""];
    assert [a, ""][..1] == [a];
    if a == [] {
      assert [a][..0] == [];
    }
  }

  /** The text before the first occurrence of `t` does not contain `t`. */
  lemma BeforeFirst(s: string, t: string, i: nat)
    requires |t| > 0 && i <= |s| && forall j :: 0 <= j < i ==> !OccursAt(s, t, j)
    ensures !Contains(s[..i], t)
  {
    forall j | 0 <= j <= i && OccursAt(s[..i], t, j)
      ensures false
    {
      assert s[j..j + |t|] == s[..i][j..j + |t|];
      assert OccursAt(s, t, j);
    }
  }

  /**
   * A two-char `t` absent from `a` does not start inside `a` in `a + b`
   * either, when `b` does not start with the second char of `t`.
   */
  lemma NotStraddling(a: string, b: string, t: string)
    requires |t| == 2 && !Contains(a, t) && b != [] && b[0] != t[1]
    ensures forall i :: 0 <= i < |a| ==> !OccursAt(a + b, t, i)
  {
    forall i | 0 <= i < |a|
      ensures !OccursAt(a + b, t, i)
    {
      if i + 2 <= |a| {
        assert (a + b)[i..i + 2] == a[i..i + 2];
        assert !OccursAt(a, t, i);
      } else {
        assert (a + b)[i + 1] == b[0];
      }
    }
  }

  /** An occurrence in a suffix is an occurrence in the whole string, shifted. */
  lemma OccursShift(s: string, t: string, k: nat, i: nat)
    requires k <= i && k <= |s|
    ensures OccursAt(s, t, i) <==> OccursAt(s[k..], t, i - k)
  {
    if i + |t| <= |s| {
      assert s[i..i + |t|] == s[k..][i - k..i - k + |t|];
    }
  }

  /**
   * The only occurrence of `target`, with none starting before it: replace
   * removes it and leaves the rest as it is.
   */
  lemma ReplaceOnce(pre: string, target: string, post: string)
    requires |target| > 0 && !Contains(post, target)
    requires forall j :: 0 <= j < |pre| ==> !OccursAt(pre + target + post, target, j)
    ensures Replace(pre + target + post, target, "") == pre + post
  {
    AppendAssoc(pre, target, post);
    ReplaceSkip(pre, target + post, target);
    ReplaceHead(target, post);
    ReplaceAbsent(post, target, "");
  }

  /** No occurrence starts inside `a`: replacing leaves `a` and goes on after it. */
  lemma {:induction false} ReplaceSkip(a: string, b: string, target: string)
    requires |target| > 0
    requires forall j :: 0 <= j < |a| ==> !OccursAt(a + b, target, j)
    ensures Replace(a + b, target, "") == a + Replace(b, target, "")
    decreases |a|
  {
    if a != [] {
      var s := a + b;
      assert !OccursAt(s, target, 0);
      assert s[1..] == a[1..] + b;
      forall j | 0 <= j < |a[1..]|
        ensures !OccursAt(a[1..] + b, target, j)
      {
        assert !OccursAt(s, target, j + 1);
        if j + 1 + |target| <= |s| {
          assert s[j + 1..j + 1 + |target|] == s[1..][j..j + |target|];
        }
      }
      ReplaceSkip(a[1..], b, target);
      assert [a[0]] + (a[1..] + Replace(b, target, "")) == a + Replace(b, target, "");
    } else {
      assert a + b == b;
    }
  }

  /** An occurrence at the start is dropped, and replacing goes on after it. */
  lemma ReplaceHead(target: string, b: string)
    requires |target| > 0
    ensures Replace(target + b, target, "") == Replace(b, target, "")
  {
    var s := target + b;
    assert s[..|target|] == target && s[|target|..] == b;
  }

  /** A string without char `ch` holds no string that has `ch` in it. */
  lemma WithoutCharNoContains(s: string, t: string, k: nat, ch: char)
    requires k < |t| && t[k] == ch && ch !in s
    ensures !Contains(s, t)
  {
  }

  // ---------------------------------------------------------------------------
  // Null references in string concatenation
  // ---------------------------------------------------------------------------

  /** What `"" + ref` gives for a String reference: its text, or "null". */
  function Show(s: Option<string>): string {
    match s
    case Some(v) => v
    case None => "null"
  }
}
