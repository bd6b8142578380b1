/**
 * A template is a Java source file whose class extends TileEntityWrapper.
 * Template.loadFile reads it once, top to bottom, through four regions of
 * trimmed lines:
 *   1. up to the first line starting with `@`: the imports;
 *   2. up to the first line containing `class`: the tags (annotations);
 *   3. up to the first line containing `{`: the class header, giving the
 *      supertype and the interfaces;
 *   4. the rest of the file: the field and method sections between their
 *      `#Start…#` / `//#End…#` markers.
 * The functions below state what each region yields; the class Template
 * runs the same scan with loops, and LoadFile is proved to agree with Load.
 */
module Templates {
  import opened Wrappers
  import opened JavaString
  import opened LazyRegex

  /** Every field of a Template that loadFile reads or sets. */
  datatype TemplateState = TemplateState(
    imports: seq<string>,
    interfaces: seq<string>,
    annotations: seq<string>,
    fieldBody: Option<string>,
    methodBody: Option<string>,
    classExtending: Option<string>,
    valid: bool,
    key: Option<string>)

  /** The state of a newly constructed Template: empty lists, null strings, valid. */
  const Fresh := TemplateState([], [], [], None, None, None, true, None)

  /** The only supertype a template may extend. */
  const RequiredSupertype := "TileEntityWrapper"

  const FieldsStart := "#StartFields#"
  const FieldsEnd := "//#EndFields#"
  const MethodsStart := "#StartMethods#"
  const MethodsEnd := "//#EndMethods#"

  // ---------------------------------------------------------------------------
  // Reading lines
  // ---------------------------------------------------------------------------

  /** The index of the first line at or after `from` that satisfies `p`, or |lines|. */
  function FirstLine(lines: seq<string>, from: nat, p: string -> bool): (r: nat)
    requires from <= |lines|
    ensures from <= r <= |lines|
    ensures forall i :: from <= i < r ==> !p(lines[i])
    ensures r < |lines| ==> p(lines[r])
    decreases |lines| - from
  {
    if from == |lines| then from
    else if p(lines[from]) then from
    else FirstLine(lines, from + 1, p)
  }

  /** FirstLine is pinned down by the line where it stops. */
  lemma FirstLineIs(lines: seq<string>, from: nat, p: string -> bool, k: nat)
    requires from <= k <= |lines|
    requires forall i :: from <= i < k ==> !p(lines[i])
    requires k < |lines| ==> p(lines[k])
    ensures FirstLine(lines, from, p) == k
  {
  }

  /** Where the reader stands after a loop that stopped at line `i` (it consumed that line). */
  function Next(lines: seq<string>, i: nat): (r: nat)
    requires i <= |lines|
    ensures r <= |lines| && (i < |lines| ==> r == i + 1)
  {
    if i < |lines| then i + 1 else |lines|
  }

  /** `init` followed by the trimmed lines in [a, b), with no separator. */
  function TrimmedConcat(init: string, lines: seq<string>, a: nat, b: nat): string
    requires a <= b <= |lines|
  {
    if a == b then init else TrimmedConcat(init, lines, a, b - 1) + Trim(lines[b - 1])
  }

  /** TrimmedConcat with its first line moved into `init`. */
  lemma {:induction false} TrimmedConcatCons(init: string, lines: seq<string>, a: nat, b: nat)
    requires a < b <= |lines|
    ensures TrimmedConcat(init, lines, a, b) == TrimmedConcat(init + Trim(lines[a]), lines, a + 1, b)
    decreases b
  {
    if a + 1 < b {
      TrimmedConcatCons(init, lines, a, b - 1);
    }
  }

  /** The text of lines [a, b) does not depend on the lines after them. */
  lemma {:induction false} TrimmedConcatPrefix(init: string, lines: seq<string>, lines': seq<string>, a: nat, b: nat)
    requires a <= b <= |lines| && b <= |lines'| && lines[..b] == lines'[..b]
    ensures TrimmedConcat(init, lines, a, b) == TrimmedConcat(init, lines', a, b)
    decreases b
  {
    if a < b {
      assert lines[b - 1] == lines[..b][b - 1] == lines'[b - 1];
      assert lines[..b - 1] == lines[..b][..b - 1];
      assert lines'[..b - 1] == lines'[..b][..b - 1];
      TrimmedConcatPrefix(init, lines, lines', a, b - 1);
    }
  }

  /** Trim of every string, in order. */
  function Trims(xs: seq<string>): (r: seq<string>)
    ensures |r| == |xs|
    ensures forall i :: 0 <= i < |xs| ==> r[i] == Trim(xs[i])
  {
    if xs == [] then [] else Trims(xs[..|xs| - 1]) + [Trim(xs[|xs| - 1])]
  }

  lemma TrimsCons(x: string, xs: seq<string>)
    ensures Trims([x] + xs) == [Trim(x)] + Trims(xs)
  {
    var l, r := [x] + xs, [Trim(x)] + Trims(xs);
    forall i | 0 <= i < |l|
      ensures Trims(l)[i] == r[i]
    {
      if i > 0 {
        assert l[i] == xs[i - 1];
      }
    }
  }

  // ---------------------------------------------------------------------------
  // Region 1: imports
  // ---------------------------------------------------------------------------

  /** The line that ends the import region: its trimmed text starts with `@`. */
  predicate IsTagLine(line: string) {
    StartsWith(Trim(line), "@")
  }

  /** The trimmed text of every `import X;` match (importPattern), in order. */
  function ImportsIn(text: string): seq<string> {
    Trims(FindAll(text, "import", ";", false))
  }

  /** The imports loadFile adds: those of the text before the first `@` line. */
  function ImportsOf(lines: seq<string>): seq<string> {
    ImportsIn(TrimmedConcat("", lines, 0, FirstLine(lines, 0, IsTagLine)))
  }

  /**
   * An `import X;` chunk yields trim(X), followed by the imports of the text
   * after it: imports are kept in source order, duplicates included.
   */
  lemma ImportsInChunk(x: string, rest: string)
    requires ';' !in x && DotMatches(x, false)
    ensures ImportsIn("import" + x + ";" + rest) == [Trim(x)] + ImportsIn(rest)
  {
    FindAllChunk("import", x, ';', rest, false);
    assert "import" + x + ";" + rest == "import" + x + [';'] + rest;
    TrimsCons(x, FindAll(rest, "import", ";", false));
  }

  /** Text in which `import` does not occur has no imports. */
  lemma ImportsInNone(text: string)
    requires !Contains(text, "import")
    ensures ImportsIn(text) == []
  {
    FindAbsent(text, "import", ";", false);
  }

  /**
   * Only the lines before the first `@` line give imports: a file that agrees
   * with `lines` on them and has a `@` line next has the same imports.
   */
  lemma ImportsIgnoreLaterLines(lines: seq<string>, lines': seq<string>)
    requires FirstLine(lines, 0, IsTagLine) < |lines'|
    requires lines'[..FirstLine(lines, 0, IsTagLine)] == lines[..FirstLine(lines, 0, IsTagLine)]
    requires IsTagLine(lines'[FirstLine(lines, 0, IsTagLine)])
    ensures ImportsOf(lines') == ImportsOf(lines)
  {
    var k := FirstLine(lines, 0, IsTagLine);
    forall i | 0 <= i < k
      ensures !IsTagLine(lines'[i])
    {
      assert lines'[i] == lines'[..k][i] == lines[..k][i] == lines[i];
    }
    FirstLineIs(lines', 0, IsTagLine, k);
    TrimmedConcatPrefix("", lines, lines', 0, k);
  }

  // ---------------------------------------------------------------------------
  // Region 2: tags
  // ---------------------------------------------------------------------------

  /** A region's text, the line where it stopped, and the `line` variable left for the next region. */
  datatype Region = Region(stop: nat, text: string, line: Option<string>)

  /** The line that ends the tag region: its trimmed text contains `class`. */
  predicate IsClassLine(line: string) {
    Contains(Trim(line), "class")
  }

  /**
   * The tag region read from `from` on: it starts with the `@` line handed
   * over (`line`), takes every trimmed line up to the class line, and the text
   * of the class line before `class`; the class line from `class` on is left.
   */
  function TagRegion(lines: seq<string>, from: nat, line: Option<string>): (r: Region)
    requires from <= |lines|
    ensures r.stop == FirstLine(lines, from, IsClassLine)
    ensures r.stop == |lines| <==> r.line.None?
    ensures r.line.Some? ==> StartsWith(r.line.value, "class")
    ensures r.line.Some? ==> r.text + r.line.value == TrimmedConcat(Show(line), lines, from, r.stop + 1)
    // the class line is cut at its first `class`
    ensures r.line.Some? ==> var before := TrimmedConcat(Show(line), lines, from, r.stop);
      before <= r.text && !Contains(r.text[|before|..], "class")
    ensures r.line.None? ==> r.text == TrimmedConcat(Show(line), lines, from, |lines|)
  {
    var c := FirstLine(lines, from, IsClassLine);
    var text := TrimmedConcat(Show(line), lines, from, c);
    if c == |lines| then Region(c, text, None)
    else
      var t := Trim(lines[c]);
      var i := IndexOf(t, "class");
      assert OccursAt(t, "class", i);
      assert (text + t[..i]) + t[i..] == text + t;
      BeforeFirst(t, "class", i);
      assert (text + t[..i])[|text|..] == t[..i];
      Region(c, text + t[..i], Some(t[i..]))
  }

  // ---------------------------------------------------------------------------
  // The template key
  // ---------------------------------------------------------------------------

  /**
   * The key a tag `@Name(k = "v")` gives: the text between the first `(` and
   * the last char, split on `=`, second piece, quotes removed, trimmed.
   */
  function TagValue(tag: string): (r: Result<string>)
    ensures r.Ok? ==> IsTrimmed(r.value) && '"' !in r.value
  {
    var data :- Substring(tag, IndexOf(tag, "(") + 1, |tag| - 1);
    var pieces := Split(data, '=');
    if |pieces| < 2 then Err(ArrayIndexOutOfBounds)
    else
      RemoveCharDeletes(pieces[1], '"');
      var unquoted := Replace(pieces[1], "\"", "");
      TrimDeletesNothingNew(unquoted, '"');
      Ok(Trim(unquoted))
  }

  /** The text between the first `(` of a tag and its last char, for a name free of `(`. */
  lemma TagData(n: string, data: string, x: char)
    requires '(' !in n
    ensures var tag := n + "(" + data + [x];
      Substring(tag, IndexOf(tag, "(") + 1, |tag| - 1) == Ok(data)
  {
    var tag := n + "(" + data + [x];
    OccursAtChar(tag, '(', |n|);
    forall i | 0 <= i < |n|
      ensures !OccursAt(tag, "(", i)
    {
      OccursAtChar(tag, '(', i);
      assert tag[i] == n[i];
    }
    assert IndexOf(tag, "(") == |n|;
    assert tag[|n| + 1..|tag| - 1] == data;
  }

  /**
   * `n(k=v…)`: the key is the second `=`-separated piece of the text in
   * parentheses, with its double quotes removed, trimmed.
   */
  lemma TagValueOf(n: string, k: string, v: string, tail: string, x: char)
    requires '(' !in n && '=' !in k && '=' !in v && v != [] && (tail == [] || tail[0] == '=')
    ensures TagValue(n + "(" + k + "=" + v + tail + [x]) == Ok(Trim(Replace(v, "\"", "")))
  {
    var tag := n + "(" + k + "=" + v + tail + [x];
    var data := k + ['='] + v + tail;
    TagRegroup(n, k, v, tail, x);
    TagData(n, data, x);
    SplitFirstTwo(k, '=', v, tail);
    TagValueFrom(tag, data);
  }

  lemma TagRegroup(n: string, k: string, v: string, tail: string, x: char)
    ensures n + "(" + k + "=" + v + tail + [x] == n + "(" + (k + ['='] + v + tail) + [x]
  {
  }

  /** `n(k)` and `n(k=)` have no second piece: reading the key throws. */
  lemma TagValueMissing(n: string, k: string, x: char)
    requires '(' !in n && '=' !in k
    ensures TagValue(n + "(" + k + [x]) == Err(ArrayIndexOutOfBounds)
    ensures TagValue(n + "(" + k + "=" + [x]) == Err(ArrayIndexOutOfBounds)
  {
    TagData(n, k, x);
    TagValueFrom(n + "(" + k + [x], k);
    var data := k + ['='];
    assert n + "(" + k + "=" + [x] == n + "(" + data + [x];
    TagData(n, data, x);
    SplitTrailing(k, '=');
    TagValueFrom(n + "(" + data + [x], data);
  }

  /** TagValue once the text in parentheses is known. */
  lemma TagValueFrom(tag: string, data: string)
    requires Substring(tag, IndexOf(tag, "(") + 1, |tag| - 1) == Ok(data)
    ensures var pieces := Split(data, '=');
      TagValue(tag) == if |pieces| < 2 then Err(ArrayIndexOutOfBounds) else Ok(Trim(Replace(pieces[1], "\"", "")))
  {
  }

  /**
   * The loop over the template's tags: each tag starting with `annotationKey`
   * sets the key, so the last such tag wins; the first one whose value cannot
   * be read throws.
   */
  function KeyScan(tags: seq<string>, annotationKey: string, key: Option<string>): Result<Option<string>> {
    if tags == [] then Ok(key)
    else
      var k :- KeyScan(tags[..|tags| - 1], annotationKey, key);
      var last := tags[|tags| - 1];
      if StartsWith(last, annotationKey) then
        var v :- TagValue(last);
        Ok(Some(v))
      else Ok(k)
  }

  /** The index of the last tag starting with `annotationKey`, or -1. */
  function LastKeyTag(tags: seq<string>, annotationKey: string): (r: int)
    ensures -1 <= r < |tags|
    ensures r >= 0 ==> StartsWith(tags[r], annotationKey)
    ensures forall j :: r < j < |tags| ==> !StartsWith(tags[j], annotationKey)
  {
    if tags == [] then -1
    else if StartsWith(tags[|tags| - 1], annotationKey) then |tags| - 1
    else LastKeyTag(tags[..|tags| - 1], annotationKey)
  }

  /** A tag starting with `annotationKey` whose value cannot be read. */
  predicate BadKeyTag(tags: seq<string>, annotationKey: string, i: int) {
    0 <= i < |tags| && StartsWith(tags[i], annotationKey) && TagValue(tags[i]).Err?
  }

  /** KeyScan throws exactly when some tag starting with `annotationKey` cannot be read. */
  lemma KeyScanThrows(tags: seq<string>, annotationKey: string, key: Option<string>)
    ensures KeyScan(tags, annotationKey, key).Err? <==> exists i :: BadKeyTag(tags, annotationKey, i)
  {
    if KeyScan(tags, annotationKey, key).Err? {
      KeyScanErrHasBadTag(tags, annotationKey, key);
    } else {
      KeyScanOkHasNoBadTag(tags, annotationKey, key);
    }
  }

  lemma {:induction false} KeyScanErrHasBadTag(tags: seq<string>, annotationKey: string, key: Option<string>)
    requires KeyScan(tags, annotationKey, key).Err?
    ensures exists i :: BadKeyTag(tags, annotationKey, i)
  {
    var init := tags[..|tags| - 1];
    if KeyScan(init, annotationKey, key).Err? {
      KeyScanErrHasBadTag(init, annotationKey, key);
      var i :| BadKeyTag(init, annotationKey, i);
      assert tags[i] == init[i];
      assert BadKeyTag(tags, annotationKey, i);
    } else {
      assert BadKeyTag(tags, annotationKey, |init|);
    }
  }

  lemma {:induction false} KeyScanOkHasNoBadTag(tags: seq<string>, annotationKey: string, key: Option<string>)
    requires KeyScan(tags, annotationKey, key).Ok?
    ensures forall i :: !BadKeyTag(tags, annotationKey, i)
  {
    if tags != [] {
      var init := tags[..|tags| - 1];
      KeyScanOkHasNoBadTag(init, annotationKey, key);
      forall i | 0 <= i < |init|
        ensures !BadKeyTag(tags, annotationKey, i)
      {
        assert tags[i] == init[i];
        assert !BadKeyTag(init, annotationKey, i);
      }
    }
  }

  /**
   * A KeyScan that does not throw yields the value of the last tag starting
   * with `annotationKey`, or the key held before when there is none.
   */
  lemma {:induction false} KeyFromLastTag(tags: seq<string>, annotationKey: string, key: Option<string>)
    requires KeyScan(tags, annotationKey, key).Ok?
    ensures LastKeyTag(tags, annotationKey) < 0 ==> KeyScan(tags, annotationKey, key).value == key
    ensures LastKeyTag(tags, annotationKey) >= 0 ==>
      && TagValue(tags[LastKeyTag(tags, annotationKey)]).Ok?
      && KeyScan(tags, annotationKey, key).value == Some(TagValue(tags[LastKeyTag(tags, annotationKey)]).value)
  {
    if tags != [] {
      var init, last := tags[..|tags| - 1], tags[|tags| - 1];
      assert KeyScan(init, annotationKey, key).Ok?;
      if !StartsWith(last, annotationKey) {
        KeyFromLastTag(init, annotationKey, key);
        assert LastKeyTag(tags, annotationKey) == LastKeyTag(init, annotationKey);
        assert KeyScan(tags, annotationKey, key) == KeyScan(init, annotationKey, key);
      }
    }
  }

  // ---------------------------------------------------------------------------
  // Region 3: the class header
  // ---------------------------------------------------------------------------

  /**
   * A header line that is not a `//` comment line, as loadFile treats it: a
   * line with a trailing `//` comment is cut at its first `/`, and the warning
   * that follows takes the substring from the cut line's first `/` on.
   */
  function HeaderLine(t: string): Result<string> {
    if Contains(t, "//") then
      var cut :- Substring(t, 0, IndexOf(t, "/"));
      var comment :- Substring(cut, IndexOf(cut, "/"), |cut|);
      Ok(cut)
    else Ok(t)
  }

  /**
   * Any header line containing `//` throws: the cut line holds no `/`, so the
   * warning's substring starts at -1.
   */
  lemma HeaderCommentThrows(t: string)
    ensures HeaderLine(t).Err? <==> Contains(t, "//")
    ensures HeaderLine(t).Err? ==> HeaderLine(t).error == StringIndexOutOfBounds
    ensures HeaderLine(t).Ok? ==> HeaderLine(t).value == t
  {
    if Contains(t, "//") {
      var i := IndexOf(t, "/");
      assert OccursAt(t, "//", IndexOf(t, "//"));
      assert t[IndexOf(t, "//")] == '/';
      OccursAtChar(t, '/', IndexOf(t, "//"));
      assert OccursAt(t, "/", IndexOf(t, "//"));
      assert 0 <= i <= IndexOf(t, "//");
      var cut := t[..i];
      forall j | 0 <= j <= |cut|
        ensures !OccursAt(cut, "/", j)
      {
        OccursAtChar(cut, '/', j);
        if j < |cut| {
          OccursAtChar(t, '/', j);
        }
      }
      assert IndexOf(cut, "/") == -1;
    }
  }

  /** The line that ends the header region. */
  predicate StopsHeader(line: string) {
    var t := Trim(line);
    !StartsWith(t, "//") && (HeaderLine(t).Err? || Contains(HeaderLine(t).value, "{"))
  }

  /** `init` followed by the trimmed lines in [a, b) that are not `//` comment lines. */
  function KeptConcat(init: string, lines: seq<string>, a: nat, b: nat): string
    requires a <= b <= |lines|
  {
    if a == b then init
    else if StartsWith(Trim(lines[b - 1]), "//") then KeptConcat(init, lines, a, b - 1)
    else KeptConcat(init, lines, a, b - 1) + Trim(lines[b - 1])
  }

  /**
   * The header region read from `from` on: the class line handed over, the
   * kept lines, and the line with the first `{`; what follows that `{` on its
   * line is left (the whole line when it starts with `{`).
   */
  function Header(lines: seq<string>, from: nat, line: Option<string>): (r: Result<Region>)
    requires from <= |lines|
    ensures r.Ok? ==> r.value.stop == FirstLine(lines, from, StopsHeader)
    ensures r.Ok? ==> (r.value.stop == |lines| <==> r.value.line.None?)
  {
    var j := FirstLine(lines, from, StopsHeader);
    var kept := KeptConcat(Show(line), lines, from, j);
    if j == |lines| then Ok(Region(j, kept, None))
    else
      var u :- HeaderLine(Trim(lines[j]));
      assert Contains(u, "{");
      var i := IndexOf(u, "{");
      assert OccursAt(u, "{", i);
      Ok(Region(j, kept + u, Some(if StartsWith(u, "{") then u else u[i + 1..])))
  }

  /** Replace(s, "/*" + g + "*/", "") for every group g, in order. */
  function StripAll(s: string, groups: seq<string>): string {
    if groups == [] then s
    else Replace(StripAll(s, groups[..|groups| - 1]), "/*" + groups[|groups| - 1] + "*/", "")
  }

  /** The header with every block comment found in it (multiLineCommentPattern) removed. */
  function StripComments(header: string): string {
    StripAll(header, FindAll(header, "/*", "*/", false))
  }

  /**
   * classExtending after the two extends patterns: the `extends…implements`
   * group when there is one, else the value held before, else the
   * `extends…{` group.
   */
  function Supertype(header: string, current: Option<string>): (r: Option<string>)
    ensures r.None? <==> && current.None?
                         && FindFirst(header, "extends", "implements", false).None?
                         && FindFirst(header, "extends", "{", false).None?
  {
    var first := match FindFirst(header, "extends", "implements", false)
      case Some(g) => Some(Trim(g))
      case None => current;
    if first.Some? then first
    else
      match FindFirst(header, "extends", "{", false)
      case Some(g) => Some(Trim(g))
      case None => None
  }

  /**
   * The first `extends`, with the first `implements` after it on the same
   * line: the supertype is the trimmed text between them.
   */
  lemma SupertypeImplements(h: string, current: Option<string>, p: nat, q: nat)
    requires OccursAt(h, "extends", p) && forall i :: 0 <= i < p ==> !OccursAt(h, "extends", i)
    requires p + 7 <= q && OccursAt(h, "implements", q)
    requires forall i :: p + 7 <= i < q ==> !OccursAt(h, "implements", i)
    requires DotMatches(h[p + 7..q], false)
    ensures Supertype(h, current) == Some(Trim(h[p + 7..q]))
  {
    FindFirstAt(h, "extends", "implements", false, p, q);
  }

  /** With no `implements` in the header, a supertype held before is kept. */
  lemma SupertypeKept(h: string, current: Option<string>)
    requires current.Some? && !Contains(h, "implements")
    ensures Supertype(h, current) == current
  {
    FindNoClose(h, "extends", "implements", false);
  }

  /**
   * With no `implements` and no supertype held before: the first `extends`,
   * with the first `{` after it on the same line, gives the trimmed text
   * between them.
   */
  lemma SupertypeBrace(h: string, p: nat, q: nat)
    requires !Contains(h, "implements")
    requires OccursAt(h, "extends", p) && forall i :: 0 <= i < p ==> !OccursAt(h, "extends", i)
    requires p + 7 <= q && OccursAt(h, "{", q)
    requires forall i :: p + 7 <= i < q ==> !OccursAt(h, "{", i)
    requires DotMatches(h[p + 7..q], false)
    ensures Supertype(h, None) == Some(Trim(h[p + 7..q]))
  {
    FindNoClose(h, "extends", "implements", false);
    FindFirstAt(h, "extends", "{", false, p, q);
  }

  /** A header in which no block comment opens is left as it is. */
  lemma StripCommentsNone(h: string)
    requires !Contains(h, "/*")
    ensures StripComments(h) == h
  {
    FindAbsent(h, "/*", "*/", false);
  }

  /**
   * A header with one block comment, opened after `pre` and closed by the
   * first comment end after it on the same line: the comment is removed and
   * the text around it is kept.
   */
  lemma StripOneComment(pre: string, c: string, post: string)
    requires !Contains(pre, "/*") && !Contains(c, "*/") && !Contains(post, "/*") && DotMatches(c, false)
    ensures StripComments(pre + "/*" + c + "*/" + post) == pre + post
  {
    var h := pre + "/*" + c + "*/" + post;
    CommentFoundOnce(pre, c, post);
    CommentReplacedOnce(pre, c, post);
    assert StripAll(h, [c]) == Replace(StripAll(h, []), "/*" + c + "*/", "");
  }

  /** The first comment is the first group found, and the search goes on after it. */
  lemma CommentFoundFirst(pre: string, c: string, post: string)
    requires !Contains(pre, "/*") && !Contains(c, "*/") && DotMatches(c, false)
    ensures FindAll(pre + "/*" + c + "*/" + post, "/*", "*/", false) == [c] + FindAll(post, "/*", "*/", false)
  {
    var h := pre + "/*" + c + "*/" + post;
    var p, q := |pre|, |pre| + 2 + |c|;
    CommentFoundAt(pre, c, post);
    FindAllAt(h, "/*", "*/", false, p, q);
  }

  /** The lone comment is the one group found. */
  lemma CommentFoundOnce(pre: string, c: string, post: string)
    requires !Contains(pre, "/*") && !Contains(c, "*/") && !Contains(post, "/*") && DotMatches(c, false)
    ensures FindAll(pre + "/*" + c + "*/" + post, "/*", "*/", false) == [c]
  {
    CommentFoundFirst(pre, c, post);
    FindAbsent(post, "/*", "*/", false);
  }

  /** Replacing the lone comment leaves what surrounds it. */
  lemma CommentReplacedOnce(pre: string, c: string, post: string)
    requires !Contains(pre, "/*") && !Contains(post, "/*")
    ensures Replace(pre + "/*" + c + "*/" + post, "/*" + c + "*/", "") == pre + post
  {
    var comment := "/*" + c + "*/";
    var h := pre + comment + post;
    assert h == pre + "/*" + c + "*/" + post;
    assert h == pre + (comment + post);
    NotStraddling(pre, comment + post, "/*");
    assert comment[..2] == "/*";
    forall j | 0 <= j < |pre|
      ensures !OccursAt(h, comment, j)
    {
      if OccursAt(h, comment, j) {
        assert h[j..j + 2] == comment[..2];
        assert OccursAt(h, "/*", j);
      }
    }
    forall j | 0 <= j <= |post| && OccursAt(post, comment, j)
      ensures false
    {
      assert post[j..j + 2] == comment[..2];
      assert OccursAt(post, "/*", j);
    }
    ReplaceOnce(pre, comment, post);
  }

  /** The comment after `pre` is the leftmost match, and it closes where `c` ends. */
  lemma CommentFoundAt(pre: string, c: string, post: string)
    requires !Contains(pre, "/*") && !Contains(c, "*/") && DotMatches(c, false)
    ensures var h := pre + "/*" + c + "*/" + post;
      && CloseAt(h, "/*", "*/", false, |pre|) == Some(|pre| + 2 + |c|)
      && (forall i :: 0 <= i < |pre| ==> !OccursAt(h, "/*", i))
      && (forall p' :: 0 <= p' < |pre| ==> CloseAt(h, "/*", "*/", false, p').None?)
      && h[|pre| + 2..|pre| + 2 + |c|] == c && h[|pre| + 4 + |c|..] == post
  {
    var h := pre + "/*" + c + "*/" + post;
    var p, q := |pre|, |pre| + 2 + |c|;
    var rest := "/*" + c + "*/" + post;
    assert h == pre + rest;
    NotStraddling(pre, rest, "/*");
    assert h[p..p + 2] == "/*";
    var body := c + "*/" + post;
    assert h[p + 2..] == body;
    NotStraddling(c, "*/" + post, "*/");
    assert body == c + ("*/" + post);
    forall i | p + 2 <= i < q
      ensures !OccursAt(h, "*/", i)
    {
      OccursShift(h, "*/", p + 2, i);
    }
    assert h[q..q + 2] == "*/";
    assert h[p + 2..q] == c;
    FirstOccurrenceIs(h, "*/", p + 2, q);
    assert h[q + 2..] == post;
  }

  // ---------------------------------------------------------------------------
  // Headers with several block comments
  // ---------------------------------------------------------------------------

  /** A block comment in a header, with the text after it up to the next comment. */
  datatype Chunk = Chunk(comment: string, after: string)

  /** Text in which neither `/` nor `*` occurs, so it cannot open or close a comment. */
  predicate Plain(s: string) {
    '/' !in s && '*' !in s
  }

  /** Every comment and every gap is Plain, and no comment spans lines. */
  predicate PlainChunks(cs: seq<Chunk>) {
    forall i :: 0 <= i < |cs| ==> Plain(cs[i].comment) && Plain(cs[i].after) && DotMatches(cs[i].comment, false)
  }

  /** The header `p /*c1*/ p1 /*c2*/ p2 …`. */
  function Commented(p: string, cs: seq<Chunk>): string
    decreases |cs|
  {
    if cs == [] then p
    else p + "/*" + cs[0].comment + "*/" + Commented(cs[0].after, cs[1..])
  }

  /** The same header with its comments cut out: `p p1 p2 …`. */
  function Uncommented(p: string, cs: seq<Chunk>): string
    decreases |cs|
  {
    if cs == [] then p else p + Uncommented(cs[0].after, cs[1..])
  }

  function CommentsOf(cs: seq<Chunk>): seq<string> {
    if cs == [] then [] else [cs[0].comment] + CommentsOf(cs[1..])
  }

  /** The header after every comment whose text is `c` is deleted, its two gaps joined. */
  function WithoutComment(p: string, cs: seq<Chunk>, c: string): (string, seq<Chunk>)
    decreases |cs|
  {
    if cs == [] then (p, [])
    else if cs[0].comment == c then WithoutComment(p + cs[0].after, cs[1..], c)
    else
      var (q, rest) := WithoutComment(cs[0].after, cs[1..], c);
      (p, [Chunk(cs[0].comment, q)] + rest)
  }

  /** The header after the comments of `gs` are deleted in turn. */
  function WithoutComments(p: string, cs: seq<Chunk>, gs: seq<string>): (string, seq<Chunk>)
    decreases |gs|
  {
    if gs == [] then (p, cs)
    else
      var (q, rest) := WithoutComments(p, cs, gs[..|gs| - 1]);
      WithoutComment(q, rest, gs[|gs| - 1])
  }

  /**
   * The comment pattern finds exactly the header's comments, in order.
   */
  lemma {:induction false} FindAllCommented(p: string, cs: seq<Chunk>)
    requires Plain(p) && PlainChunks(cs)
    ensures FindAll(Commented(p, cs), "/*", "*/", false) == CommentsOf(cs)
    decreases |cs|
  {
    WithoutCharNoContains(p, "/*", 0, '/');
    if cs == [] {
      FindAbsent(p, "/*", "*/", false);
    } else {
      WithoutCharNoContains(cs[0].comment, "*/", 1, '/');
      CommentFoundFirst(p, cs[0].comment, Commented(cs[0].after, cs[1..]));
      assert PlainChunks(cs[1..]) by {
        forall i | 0 <= i < |cs[1..]|
          ensures Plain(cs[1..][i].comment) && Plain(cs[1..][i].after) && DotMatches(cs[1..][i].comment, false)
        {
          assert cs[1..][i] == cs[i + 1];
        }
      }
      FindAllCommented(cs[0].after, cs[1..]);
    }
  }

  /** A Plain gap can be moved out in front of a header. */
  lemma {:induction false} WithoutCommentPrefix(a: string, p: string, cs: seq<Chunk>, c: string)
    ensures WithoutComment(a + p, cs, c) == (a + WithoutComment(p, cs, c).0, WithoutComment(p, cs, c).1)
    decreases |cs|
  {
    if cs != [] && cs[0].comment == c {
      assert a + p + cs[0].after == a + (p + cs[0].after);
      WithoutCommentPrefix(a, p + cs[0].after, cs[1..], c);
    }
  }

  lemma {:induction false} CommentedPrefix(a: string, p: string, cs: seq<Chunk>)
    ensures Commented(a + p, cs) == a + Commented(p, cs)
  {
    if cs != [] {
      var r := "/*" + cs[0].comment + "*/" + Commented(cs[0].after, cs[1..]);
      assert Commented(a + p, cs) == (a + p) + r;
      assert Commented(p, cs) == p + r;
    }
  }

  /** '*' never starts a header whose gaps are Plain. */
  lemma CommentedHead(p: string, cs: seq<Chunk>)
    requires Plain(p) && Commented(p, cs) != []
    ensures Commented(p, cs)[0] != '*'
  {
    if p == [] && cs != [] {
      assert Commented(p, cs)[0] == '/';
    } else if p != [] {
      assert Commented(p, cs)[0] == p[0];
    }
  }

  /** The comment `/*c*/` is not found at the start of a different Plain comment. */
  lemma OtherComment(c: string, c0: string, b: string)
    requires Plain(c) && Plain(c0) && c != c0
    ensures !OccursAt("/*" + c0 + "*/" + b, "/*" + c + "*/", 0)
  {
    var s := "/*" + c0 + "*/" + b;
    var t := "/*" + c + "*/";
    if |t| <= |s| {
      if |c| < |c0| {
        assert s[2 + |c|] == c0[|c|] && t[2 + |c|] == '*';
      } else if |c| > |c0| {
        assert s[2 + |c0|] == '*' && t[2 + |c0|] == c[|c0|];
      } else {
        assert s[..|t|][2..2 + |c|] == s[2..2 + |c|] == c0;
        assert t[2..2 + |c|] == c;
      }
    }
  }

  /** Replacing a `/*c0*/` that is not the target leaves it and goes on after it. */
  lemma KeepComment(c: string, c0: string, q: string, rest: seq<Chunk>)
    requires Plain(c) && Plain(c0) && c != c0 && Plain(q)
    ensures var b := Commented(q, rest);
      Replace("/*" + c0 + "*/" + b, "/*" + c + "*/", "") == "/*" + c0 + "*/" + Replace(b, "/*" + c + "*/", "")
  {
    var a := "/*" + c0 + "*/";
    var b := Commented(q, rest);
    var t := "/*" + c + "*/";
    var s := a + b;
    OtherComment(c, c0, b);
    forall j | 0 < j < |a|
      ensures !OccursAt(s, t, j)
    {
      if j < |a| - 1 {
        assert s[j] == a[j];
        if 2 <= j < |a| - 2 {
          assert a[j] == c0[j - 2];
        }
        assert a[j] != t[0];
      } else if b != [] {
        assert s[j + 1] == b[0];
        CommentedHead(q, rest);
      }
    }
    ReplaceSkip(a, b, t);
  }

  lemma PlainChunksTail(cs: seq<Chunk>)
    requires PlainChunks(cs) && cs != []
    ensures Plain(cs[0].comment) && Plain(cs[0].after) && DotMatches(cs[0].comment, false)
    ensures PlainChunks(cs[1..])
  {
    forall i | 0 <= i < |cs[1..]|
      ensures Plain(cs[1..][i].comment) && Plain(cs[1..][i].after) && DotMatches(cs[1..][i].comment, false)
    {
      assert cs[1..][i] == cs[i + 1];
    }
  }

  lemma PlainChunksCons(ch: Chunk, cs: seq<Chunk>)
    requires Plain(ch.comment) && Plain(ch.after) && DotMatches(ch.comment, false) && PlainChunks(cs)
    ensures PlainChunks([ch] + cs)
  {
    forall i | 0 < i < |[ch] + cs|
      ensures Plain(([ch] + cs)[i].comment) && Plain(([ch] + cs)[i].after)
    {
      assert ([ch] + cs)[i] == cs[i - 1];
    }
  }

  lemma {:induction false} UncommentedPrefix(a: string, p: string, cs: seq<Chunk>)
    ensures Uncommented(a + p, cs) == a + Uncommented(p, cs)
  {
  }

  lemma {:induction false} CommentsOfPlain(cs: seq<Chunk>)
    requires PlainChunks(cs)
    ensures forall x :: x in CommentsOf(cs) ==> Plain(x)
    decreases |cs|
  {
    if cs != [] {
      PlainChunksTail(cs);
      CommentsOfPlain(cs[1..]);
    }
  }

  /** No comment starts in a Plain gap. */
  lemma SkipGap(p: string, r: string, c: string)
    requires Plain(p)
    ensures Replace(p + r, "/*" + c + "*/", "") == p + Replace(r, "/*" + c + "*/", "")
  {
    var t := "/*" + c + "*/";
    forall j | 0 <= j < |p|
      ensures !OccursAt(p + r, t, j)
    {
      assert (p + r)[j] == p[j];
    }
    ReplaceSkip(p, r, t);
  }

  /** The first comment is `c`: it goes, and its gaps join. */
  lemma DropFirstComment(p: string, cs: seq<Chunk>, c: string)
    requires Plain(p) && cs != [] && cs[0].comment == c
    requires var w := WithoutComment(cs[0].after, cs[1..], c);
      Replace(Commented(cs[0].after, cs[1..]), "/*" + c + "*/", "") == Commented(w.0, w.1)
    ensures var w := WithoutComment(p, cs, c);
      Replace(Commented(p, cs), "/*" + c + "*/", "") == Commented(w.0, w.1)
  {
    var t := "/*" + c + "*/";
    var q, tail := cs[0].after, cs[1..];
    var b := Commented(q, tail);
    assert Commented(p, cs) == p + (t + b);
    SkipGap(p, t + b, c);
    ReplaceHead(t, b);
    var w := WithoutComment(q, tail, c);
    CommentedPrefix(p, w.0, w.1);
    WithoutCommentPrefix(p, q, tail, c);
  }

  /** The first comment is not `c`: it stays, and replacing goes on after it. */
  lemma KeepFirstComment(p: string, cs: seq<Chunk>, c: string)
    requires Plain(p) && cs != [] && cs[0].comment != c && Plain(cs[0].comment) && Plain(cs[0].after) && Plain(c)
    requires var w := WithoutComment(cs[0].after, cs[1..], c);
      Replace(Commented(cs[0].after, cs[1..]), "/*" + c + "*/", "") == Commented(w.0, w.1)
    ensures var w := WithoutComment(p, cs, c);
      Replace(Commented(p, cs), "/*" + c + "*/", "") == Commented(w.0, w.1)
  {
    var c0, q, tail := cs[0].comment, cs[0].after, cs[1..];
    var w := WithoutComment(q, tail, c);
    KeepWithGap(p, c0, q, tail, c);
    WithoutCommentKept(p, cs, c);
    CommentedCons(p, Chunk(c0, w.0), w.1);
  }

  lemma KeepWithGap(p: string, c0: string, q: string, tail: seq<Chunk>, c: string)
    requires Plain(p) && Plain(c0) && Plain(q) && Plain(c) && c0 != c
    ensures var b := Commented(q, tail);
      Replace(p + "/*" + c0 + "*/" + b, "/*" + c + "*/", "") == p + "/*" + c0 + "*/" + Replace(b, "/*" + c + "*/", "")
  {
    var a, b := "/*" + c0 + "*/", Commented(q, tail);
    var x := Replace(b, "/*" + c + "*/", "");
    Regroup(p, c0, b);
    Regroup(p, c0, x);
    SkipGap(p, a + b, c);
    KeepComment(c, c0, q, tail);
  }

  lemma Regroup(p: string, c0: string, b: string)
    ensures p + "/*" + c0 + "*/" + b == p + (("/*" + c0 + "*/") + b)
  {
  }

  lemma WithoutCommentKept(p: string, cs: seq<Chunk>, c: string)
    requires cs != [] && cs[0].comment != c
    ensures var w := WithoutComment(cs[0].after, cs[1..], c);
      WithoutComment(p, cs, c) == (p, [Chunk(cs[0].comment, w.0)] + w.1)
  {
  }

  lemma CommentedCons(p: string, ch: Chunk, cs: seq<Chunk>)
    ensures Commented(p, [ch] + cs) == p + "/*" + ch.comment + "*/" + Commented(ch.after, cs)
  {
    assert ([ch] + cs)[0] == ch && ([ch] + cs)[1..] == cs;
  }

  /**
   * Replacing `/*c*/` throughout a Plain header deletes exactly the comments
   * whose text is `c`.
   */
  lemma {:induction false} ReplaceCommented(p: string, cs: seq<Chunk>, c: string)
    requires Plain(p) && PlainChunks(cs) && Plain(c)
    ensures var w := WithoutComment(p, cs, c);
      Replace(Commented(p, cs), "/*" + c + "*/", "") == Commented(w.0, w.1)
    decreases |cs|
  {
    if cs == [] {
      WithoutCharNoContains(p, "/*" + c + "*/", 0, '/');
      ReplaceAbsent(p, "/*" + c + "*/", "");
    } else {
      PlainChunksTail(cs);
      ReplaceCommented(cs[0].after, cs[1..], c);
      if cs[0].comment == c {
        DropFirstComment(p, cs, c);
      } else {
        KeepFirstComment(p, cs, c);
      }
    }
  }

  /**
   * Deleting the comments `c` keeps the header Plain, keeps its text outside
   * comments, and leaves only comments it had that are not `c`.
   */
  lemma {:induction false} WithoutCommentKeeps(p: string, cs: seq<Chunk>, c: string)
    requires Plain(p) && PlainChunks(cs)
    ensures var (q, rest) := WithoutComment(p, cs, c);
      && Plain(q) && PlainChunks(rest)
      && Uncommented(q, rest) == Uncommented(p, cs)
      && forall x :: x in CommentsOf(rest) ==> x in CommentsOf(cs) && x != c
    decreases |cs|
  {
    if cs != [] {
      var c0, q, tail := cs[0].comment, cs[0].after, cs[1..];
      PlainChunksTail(cs);
      if c0 == c {
        WithoutCommentKeeps(p + q, tail, c);
        UncommentedPrefix(p, q, tail);
      } else {
        WithoutCommentKeeps(q, tail, c);
        var (q', rest') := WithoutComment(q, tail, c);
        PlainChunksCons(Chunk(c0, q'), rest');
        assert ([Chunk(c0, q')] + rest')[1..] == rest';
      }
    }
  }

  /** Deleting the groups `gs` in turn keeps what WithoutCommentKeeps keeps, for every group. */
  lemma {:induction false} WithoutCommentsKeeps(p: string, cs: seq<Chunk>, gs: seq<string>)
    requires Plain(p) && PlainChunks(cs)
    ensures var w := WithoutComments(p, cs, gs);
      && Plain(w.0) && PlainChunks(w.1)
      && Uncommented(w.0, w.1) == Uncommented(p, cs)
      && forall x :: x in CommentsOf(w.1) ==> x in CommentsOf(cs) && x !in gs
    decreases |gs|
  {
    if gs != [] {
      var init, last := gs[..|gs| - 1], gs[|gs| - 1];
      WithoutCommentsKeeps(p, cs, init);
      var w := WithoutComments(p, cs, init);
      WithoutCommentKeeps(w.0, w.1, last);
      assert forall x :: x in gs ==> x in init || x == last;
    }
  }

  /** Stripping the groups `gs` in turn deletes every comment whose text is one of them. */
  lemma {:induction false} StripAllCommented(p: string, cs: seq<Chunk>, gs: seq<string>)
    requires Plain(p) && PlainChunks(cs) && forall x :: x in gs ==> Plain(x)
    ensures var w := WithoutComments(p, cs, gs);
      StripAll(Commented(p, cs), gs) == Commented(w.0, w.1)
    decreases |gs|
  {
    if gs != [] {
      var init, last := gs[..|gs| - 1], gs[|gs| - 1];
      assert forall x :: x in init ==> x in gs;
      StripAllCommented(p, cs, init);
      WithoutCommentsKeeps(p, cs, init);
      var w := WithoutComments(p, cs, init);
      assert last in gs;
      ReplaceCommented(w.0, w.1, last);
    }
  }

  /**
   * A header whose text outside comments and inside them is free of `/` and
   * `*` (and whose comments stay on one line) loses every comment, and
   * nothing else: the gaps are kept, in order.
   */
  lemma StripAllComments(p: string, cs: seq<Chunk>)
    requires Plain(p) && PlainChunks(cs)
    ensures StripComments(Commented(p, cs)) == Uncommented(p, cs)
  {
    FindAllCommented(p, cs);
    CommentsOfPlain(cs);
    StripAllCommented(p, cs, CommentsOf(cs));
    WithoutCommentsKeeps(p, cs, CommentsOf(cs));
    var w := WithoutComments(p, cs, CommentsOf(cs));
    CommentsOfHead(w.1);
  }

  lemma CommentsOfHead(cs: seq<Chunk>)
    ensures cs != [] ==> cs[0].comment in CommentsOf(cs)
  {
  }

  /** The comma-separated names of every `implements…{` group, each trimmed. */
  function InterfacesOf(groups: seq<string>): seq<string> {
    if groups == [] then []
    else InterfacesOf(groups[..|groups| - 1]) + Trims(Split(Trim(groups[|groups| - 1]), ','))
  }

  function InterfacesIn(header: string): seq<string> {
    InterfacesOf(FindAll(header, "implements", "{", false))
  }

  /** Every interface name is trimmed and holds no comma. */
  lemma {:induction false} InterfaceNamesClean(groups: seq<string>)
    ensures forall i :: 0 <= i < |InterfacesOf(groups)| ==>
      IsTrimmed(InterfacesOf(groups)[i]) && ',' !in InterfacesOf(groups)[i]
  {
    if groups != [] {
      InterfaceNamesClean(groups[..|groups| - 1]);
      var ps := Split(Trim(groups[|groups| - 1]), ',');
      forall i | 0 <= i < |ps|
        ensures ',' !in Trim(ps[i])
      {
        TrimDeletesNothingNew(ps[i], ',');
      }
    }
  }

  // ---------------------------------------------------------------------------
  // Region 4: the body
  // ---------------------------------------------------------------------------

  /** `init` followed by the lines in [a, b), each untrimmed and followed by a newline. */
  function NlConcat(init: string, lines: seq<string>, a: nat, b: nat): string
    requires a <= b <= |lines|
  {
    if a == b then init else NlConcat(init, lines, a, b - 1) + lines[b - 1] + "\n"
  }

  /** A section found between its markers across newlines, or the section held before. */
  function Section(rest: string, start: string, end: string, current: Option<string>): Option<string> {
    match FindFirst(rest, start, end, true)
    case Some(g) => Some(g)
    case None => current
  }

  // ---------------------------------------------------------------------------
  // The whole of loadFile
  // ---------------------------------------------------------------------------

  /**
   * Regions 1 and 2: the state with the imports and the scanned tags added,
   * and the tag region.
   */
  function Preamble(st: TemplateState, lines: seq<string>, scan: string -> seq<string>): (r: (TemplateState, Region))
    ensures r.1.stop <= |lines|
  {
    var k := FirstLine(lines, 0, IsTagLine);
    var tags := TagsOf(lines);
    (st.(imports := st.imports + ImportsIn(TrimmedConcat("", lines, 0, k)),
         annotations := st.annotations + scan(tags.text)),
     tags)
  }

  /** The tag region of a file: from the first `@` line to the first `class` line. */
  function TagsOf(lines: seq<string>): Region {
    var k := FirstLine(lines, 0, IsTagLine);
    TagRegion(lines, Next(lines, k), if k < |lines| then Some(Trim(lines[k])) else None)
  }

  /**
   * Regions 3 and 4, once a key is known: the supertype, and for a template
   * extending RequiredSupertype its interfaces and sections; otherwise the
   * template is marked invalid.
   */
  function ClassPart(st: TemplateState, lines: seq<string>, tags: Region): (r: Result<(bool, TemplateState)>)
    requires tags.stop <= |lines|
    ensures r.Ok? ==> r.value.0
    ensures r.Ok? ==> var st' := r.value.1;
      st'.imports == st.imports && st'.annotations == st.annotations && st'.key == st.key
    ensures r.Ok? && r.value.1.classExtending != Some(RequiredSupertype) ==> var st' := r.value.1;
      && !st'.valid && st'.interfaces == st.interfaces
      && st'.fieldBody == st.fieldBody && st'.methodBody == st.methodBody
    ensures r.Ok? && r.value.1.valid ==> st.valid && r.value.1.classExtending == Some(RequiredSupertype)
  {
    var header :- Header(lines, Next(lines, tags.stop), tags.line);
    var h := StripComments(header.text);
    var st1 := st.(classExtending := Supertype(h, st.classExtending));
    if st1.classExtending != Some(RequiredSupertype) then Ok((true, st1.(valid := false)))
    else Ok((true, Body(st1, h, lines, header)))
  }

  /** The interfaces of the stripped header `h` and the sections of the rest of the file. */
  function Body(st: TemplateState, h: string, lines: seq<string>, header: Region): TemplateState
    requires header.stop <= |lines|
  {
    var rest := NlConcat(Show(header.line), lines, Next(lines, header.stop), |lines|);
    st.(interfaces := st.interfaces + InterfacesIn(h),
        fieldBody := Section(rest, FieldsStart, FieldsEnd, st.fieldBody),
        methodBody := Section(rest, MethodsStart, MethodsEnd, st.methodBody))
  }

  /**
   * loadFile on a template in state `st`: Ok(true) when it returns the
   * template, Ok(false) when it returns null, with the template's new state;
   * Err when it throws.
   */
  function Load(st: TemplateState, annotationKey: string, lines: seq<string>, scan: string -> seq<string>): (r: Result<(bool, TemplateState)>)
    // whatever the outcome, the imports before the first `@` line and the scanned tags are added
    ensures r.Ok? ==> r.value.1.imports == st.imports + ImportsOf(lines)
    ensures r.Ok? ==> r.value.1.annotations == st.annotations + scan(TagsOf(lines).text)
    // null is returned exactly when no key is known; nothing past the tags is then read
    ensures r.Ok? ==> (!r.value.0 <==> r.value.1.key.None?)
    ensures r.Ok? && !r.value.0 ==> var st' := r.value.1;
      && !st'.valid && st'.classExtending == st.classExtending && st'.interfaces == st.interfaces
      && st'.fieldBody == st.fieldBody && st'.methodBody == st.methodBody
    // a wrong or missing supertype invalidates the template before interfaces and sections
    ensures r.Ok? && r.value.0 && r.value.1.classExtending != Some(RequiredSupertype) ==> var st' := r.value.1;
      && !st'.valid && st'.interfaces == st.interfaces
      && st'.fieldBody == st.fieldBody && st'.methodBody == st.methodBody
    // a template left valid has a key and extends RequiredSupertype
    ensures r.Ok? && r.value.1.valid ==>
      r.value.0 && st.valid && r.value.1.key.Some? && r.value.1.classExtending == Some(RequiredSupertype)
  {
    var (st1, tags) := Preamble(st, lines, scan);
    var key :- KeyScan(st1.annotations, annotationKey, st1.key);
    if key.None? then Ok((false, st1.(key := key, valid := false)))
    else ClassPart(st1.(key := key), lines, tags)
  }

  /**
   * The key is read from the last tag starting with `annotationKey` (among
   * the tags held before and those just scanned), or kept when there is none.
   */
  lemma LoadKey(st: TemplateState, annotationKey: string, lines: seq<string>, scan: string -> seq<string>)
    requires Load(st, annotationKey, lines, scan).Ok?
    ensures var tags := st.annotations + scan(TagsOf(lines).text);
      var i := LastKeyTag(tags, annotationKey);
      var key := Load(st, annotationKey, lines, scan).value.1.key;
      && (i < 0 ==> key == st.key)
      && (i >= 0 ==> TagValue(tags[i]).Ok? && key == Some(TagValue(tags[i]).value))
  {
    KeyFromLastTag(st.annotations + scan(TagsOf(lines).text), annotationKey, st.key);
  }

  /** A header line that is not a `//` line but contains `//` ends the header region. */
  lemma CommentedHeaderLineStops(line: string)
    requires !StartsWith(Trim(line), "//") && Contains(Trim(line), "//")
    ensures StopsHeader(line)
  {
    HeaderCommentThrows(Trim(line));
  }

  /**
   * Once a key is known, a header line carrying a trailing `//` comment makes
   * loadFile throw StringIndexOutOfBoundsException, provided every header line
   * before it is a `//` line or contains neither `//` nor `{`.
   */
  lemma LoadThrowsOnHeaderComment(st: TemplateState, annotationKey: string, lines: seq<string>, scan: string -> seq<string>, j: nat)
    requires var r := KeyScan(st.annotations + scan(TagsOf(lines).text), annotationKey, st.key);
      r.Ok? && r.value.Some?
    requires Next(lines, TagsOf(lines).stop) <= j < |lines|
    requires forall i :: Next(lines, TagsOf(lines).stop) <= i < j ==>
      StartsWith(Trim(lines[i]), "//") || (!Contains(Trim(lines[i]), "//") && !Contains(Trim(lines[i]), "{"))
    requires !StartsWith(Trim(lines[j]), "//") && Contains(Trim(lines[j]), "//")
    ensures Load(st, annotationKey, lines, scan) == Err(StringIndexOutOfBounds)
  {
    var from := Next(lines, TagsOf(lines).stop);
    forall i | from <= i < j
      ensures !StopsHeader(lines[i])
    {
      HeaderCommentThrows(Trim(lines[i]));
    }
    CommentedHeaderLineStops(lines[j]);
    FirstLineIs(lines, from, StopsHeader, j);
    HeaderCommentThrows(Trim(lines[j]));
  }

  /** A section whose start marker is absent keeps the value held before. */
  lemma SectionAbsent(rest: string, start: string, end: string, current: Option<string>)
    requires !Contains(rest, start)
    ensures Section(rest, start, end, current) == current
  {
    FindAbsent(rest, start, end, true);
  }

  /**
   * A section is the text from the first start marker to the first end
   * marker after it, newlines included.
   */
  lemma SectionFound(rest: string, start: string, end: string, current: Option<string>, p: nat, q: nat)
    requires OccursAt(rest, start, p) && forall i :: 0 <= i < p ==> !OccursAt(rest, start, i)
    requires p + |start| <= q && OccursAt(rest, end, q)
    requires forall i :: p + |start| <= i < q ==> !OccursAt(rest, end, i)
    ensures Section(rest, start, end, current) == Some(rest[p + |start|..q])
  {
    FindFirstAt(rest, start, end, true, p, q);
  }

  // ---------------------------------------------------------------------------
  // The read loops of loadFile
  // ---------------------------------------------------------------------------

  /** Region 1: read trimmed lines until one starts with `@`. */
  method ReadImportRegion(lines: seq<string>) returns (k: nat, text: string)
    ensures k == FirstLine(lines, 0, IsTagLine)
    ensures text == TrimmedConcat("", lines, 0, k)
  {
    k, text := 0, "";
    while k < |lines|
      invariant k <= |lines|
      invariant FirstLine(lines, k, IsTagLine) == FirstLine(lines, 0, IsTagLine)
      invariant text == TrimmedConcat("", lines, 0, k)
    {
      var line := Trim(lines[k]);
      if StartsWith(line, "@") {
        break;
      }
      text := text + line;
      k := k + 1;
    }
  }

  /**
   * The `while (matcher.find())` loop over importPattern: the successive finds
   * are FindAll's groups, each trimmed and added in turn.
   */
  method MatchImports(text: string) returns (found: seq<string>)
    ensures found == ImportsIn(text)
  {
    var groups := FindAll(text, "import", ";", false);
    found := [];
    for i := 0 to |groups|
      invariant found == Trims(groups[..i])
    {
      assert groups[..i + 1][..i] == groups[..i];
      found := found + [Trim(groups[i])];
    }
    assert groups[..|groups|] == groups;
  }

  /** Region 2: read trimmed lines until one contains `class`. */
  method ReadTagRegion(lines: seq<string>, from: nat, line: Option<string>) returns (r: Region)
    requires from <= |lines|
    ensures r == TagRegion(lines, from, line)
  {
    var text := Show(line);
    var j := from;
    var left: Option<string> := None;
    while j < |lines|
      invariant from <= j <= |lines|
      invariant FirstLine(lines, j, IsClassLine) == FirstLine(lines, from, IsClassLine)
      invariant text == TrimmedConcat(Show(line), lines, from, j)
    {
      var t := Trim(lines[j]);
      if Contains(t, "class") {
        var i := IndexOf(t, "class");
        if !StartsWith(t, "class") {
          text := text + t[..i];
          t := t[i..];
        } else {
          assert i == 0 && t[..i] == [] && t[i..] == t;
        }
        left := Some(t);
        break;
      }
      text := text + t;
      j := j + 1;
    }
    r := Region(j, text, left);
  }

  /** The tag loop: every tag starting with `annotationKey` sets the key. */
  method ScanKey(tags: seq<string>, annotationKey: string, key: Option<string>) returns (r: Result<Option<string>>)
    ensures r == KeyScan(tags, annotationKey, key)
  {
    var current := key;
    for i := 0 to |tags|
      invariant KeyScan(tags[..i], annotationKey, key) == Ok(current)
    {
      assert tags[..i + 1][..i] == tags[..i];
      if StartsWith(tags[i], annotationKey) {
        var v := TagValue(tags[i]);
        if v.Err? {
          KeyScanPrefixErr(tags, annotationKey, key, i + 1);
          return Err(v.error);
        }
        current := Some(v.value);
      }
    }
    assert tags[..|tags|] == tags;
    r := Ok(current);
  }

  /** Once a prefix of the tags throws, so does the whole scan, with the same exception. */
  lemma {:induction false} KeyScanPrefixErr(tags: seq<string>, annotationKey: string, key: Option<string>, i: nat)
    requires i <= |tags| && KeyScan(tags[..i], annotationKey, key).Err?
    ensures KeyScan(tags, annotationKey, key) == KeyScan(tags[..i], annotationKey, key)
    decreases |tags|
  {
    if i < |tags| {
      var init := tags[..|tags| - 1];
      assert init[..i] == tags[..i];
      KeyScanPrefixErr(init, annotationKey, key, i);
    } else {
      assert tags[..i] == tags;
    }
  }

  /** Region 3: skip `//` lines, read trimmed lines until one contains `{`. */
  method ReadHeader(lines: seq<string>, from: nat, line: Option<string>) returns (r: Result<Region>)
    requires from <= |lines|
    ensures r == Header(lines, from, line)
  {
    var text := Show(line);
    var j := from;
    var left: Option<string> := None;
    while j < |lines|
      invariant from <= j <= |lines|
      invariant forall k :: from <= k < j ==> !StopsHeader(lines[k])
      invariant text == KeptConcat(Show(line), lines, from, j)
    {
      var t := Trim(lines[j]);
      if !StartsWith(t, "//") {
        HeaderCommentThrows(t);
        if StopsHeader(lines[j]) {
          HeaderAt(lines, from, line, j);
        }
        t :- HeaderLine(t);
        if Contains(t, "{") {
          text := text + t;
          if !StartsWith(t, "{") {
            var i := IndexOf(t, "{");
            assert OccursAt(t, "{", i);
            t := t[i + 1..];
          }
          left := Some(t);
          return Ok(Region(j, text, left));
        }
        text := text + t;
      }
      j := j + 1;
    }
    FirstLineIs(lines, from, StopsHeader, j);
    r := Ok(Region(j, text, left));
  }

  /** Header, once the line it stops at is known. */
  lemma HeaderAt(lines: seq<string>, from: nat, line: Option<string>, j: nat)
    requires from <= j < |lines| && StopsHeader(lines[j])
    requires forall k :: from <= k < j ==> !StopsHeader(lines[k])
    ensures var h := HeaderLine(Trim(lines[j]));
      && (h.Err? ==> Header(lines, from, line) == Err(h.error))
      && (h.Ok? ==>
            Header(lines, from, line) ==
            Ok(Region(j, KeptConcat(Show(line), lines, from, j) + h.value,
                      Some(if StartsWith(h.value, "{") then h.value else h.value[IndexOf(h.value, "{") + 1..]))))
  {
    FirstLineIs(lines, from, StopsHeader, j);
  }

  /** Every find of multiLineCommentPattern in the header, removed from it in turn. */
  method StripHeaderComments(header: string) returns (s: string)
    ensures s == StripComments(header)
  {
    var groups := FindAll(header, "/*", "*/", false);
    s := header;
    for i := 0 to |groups|
      invariant s == StripAll(header, groups[..i])
    {
      assert groups[..i + 1][..i] == groups[..i];
      s := Replace(s, "/*" + groups[i] + "*/", "");
    }
    assert groups[..|groups|] == groups;
  }

  /** Every find of implementsPattern, its group split on `,` and each name trimmed. */
  method MatchInterfaces(header: string) returns (names: seq<string>)
    ensures names == InterfacesIn(header)
  {
    var groups := FindAll(header, "implements", "{", false);
    names := [];
    for i := 0 to |groups|
      invariant names == InterfacesOf(groups[..i])
    {
      InterfacesOfStep(groups, i);
      names := AddTrimmed(names, Split(Trim(groups[i]), ','));
    }
    assert groups[..|groups|] == groups;
  }

  lemma InterfacesOfStep(groups: seq<string>, i: nat)
    requires i < |groups|
    ensures InterfacesOf(groups[..i + 1]) == InterfacesOf(groups[..i]) + Trims(Split(Trim(groups[i]), ','))
  {
    assert groups[..i + 1][..i] == groups[..i];
  }

  /** `for (String s : imps) list.add(s.trim())` */
  method AddTrimmed(names0: seq<string>, imps: seq<string>) returns (names: seq<string>)
    ensures names == names0 + Trims(imps)
  {
    names := names0;
    for j := 0 to |imps|
      invariant names == names0 + Trims(imps[..j])
    {
      assert imps[..j + 1][..j] == imps[..j];
      names := names + [Trim(imps[j])];
    }
    assert imps[..|imps|] == imps;
  }

  /** Region 4: what is left of the `{` line, then every further line with a newline. */
  method ReadRemainder(lines: seq<string>, from: nat, line: Option<string>) returns (s: string)
    requires from <= |lines|
    ensures s == NlConcat(Show(line), lines, from, |lines|)
  {
    s := Show(line);
    var j := from;
    while j < |lines|
      invariant from <= j <= |lines|
      invariant s == NlConcat(Show(line), lines, from, j)
    {
      s := s + lines[j] + "\n";
      j := j + 1;
    }
  }

  // ---------------------------------------------------------------------------
  // The template object
  // ---------------------------------------------------------------------------

  class Template {
    const annotationKey: string
    var imports: seq<string>
    var interfaces: seq<string>
    var annotations: seq<string>
    var fieldBody: Option<string>
    var methodBody: Option<string>
    var classExtending: Option<string>
    var valid: bool
    var key: Option<string>

    constructor (annotationKey: string)
      ensures this.annotationKey == annotationKey
      ensures State() == Fresh
    {
      this.annotationKey := annotationKey;
      imports, interfaces, annotations := [], [], [];
      fieldBody, methodBody, classExtending := None, None, None;
      valid, key := true, None;
    }

    function State(): TemplateState
      reads this
    {
      TemplateState(imports, interfaces, annotations, fieldBody, methodBody, classExtending, valid, key)
    }

    /**
     * loadFile over the file's lines: Ok(true) when it returns this template,
     * Ok(false) when it returns null, Err when it throws.
     */
    method LoadFile(lines: seq<string>, scan: string -> seq<string>) returns (r: Result<bool>)
      modifies this
      ensures r.Ok? <==> Load(old(State()), annotationKey, lines, scan).Ok?
      ensures r.Ok? ==> r.value == Load(old(State()), annotationKey, lines, scan).value.0
      ensures r.Ok? ==> State() == Load(old(State()), annotationKey, lines, scan).value.1
      ensures r.Err? ==> r.error == Load(old(State()), annotationKey, lines, scan).error
    {
      var tags := ReadPreamble(lines, scan);
      key :- ScanKey(annotations, annotationKey, key);
      if key.None? {
        valid := false;
        return Ok(false);
      }
      r := ReadClass(lines, tags);
    }

    /** Regions 1 and 2: add the imports, then the tags the scanner finds. */
    method ReadPreamble(lines: seq<string>, scan: string -> seq<string>) returns (tags: Region)
      modifies this
      ensures (State(), tags) == Preamble(old(State()), lines, scan)
    {
      var k, text := ReadImportRegion(lines);
      var found := MatchImports(text);
      imports := imports + found;
      tags := ReadTagRegion(lines, Next(lines, k), if k < |lines| then Some(Trim(lines[k])) else None);
      assert tags == TagsOf(lines);
      annotations := annotations + scan(tags.text);
    }

    /** Regions 3 and 4: the header, the supertype check, then the body. */
    method ReadClass(lines: seq<string>, tags: Region) returns (r: Result<bool>)
      requires tags.stop <= |lines|
      modifies this
      ensures r.Ok? <==> ClassPart(old(State()), lines, tags).Ok?
      ensures r.Ok? ==> r.value == ClassPart(old(State()), lines, tags).value.0
      ensures r.Ok? ==> State() == ClassPart(old(State()), lines, tags).value.1
      ensures r.Err? ==> r.error == ClassPart(old(State()), lines, tags).error
    {
      var header :- ReadHeader(lines, Next(lines, tags.stop), tags.line);
      var h := StripHeaderComments(header.text);
      var extending := FindFirst(h, "extends", "implements", false);
      if extending.Some? {
        classExtending := Some(Trim(extending.value));
      }
      if classExtending.None? {
        extending := FindFirst(h, "extends", "{", false);
        if extending.Some? {
          classExtending := Some(Trim(extending.value));
        }
      }
      if classExtending != Some(RequiredSupertype) {
        valid := false;
        return Ok(true);
      }
      ReadBody(h, lines, header);
      return Ok(true);
    }

    /** Region 4: the interfaces, then the field and method sections. */
    method ReadBody(h: string, lines: seq<string>, header: Region)
      requires header.stop <= |lines|
      modifies this
      ensures State() == Body(old(State()), h, lines, header)
    {
      var names := MatchInterfaces(h);
      interfaces := interfaces + names;
      var rest := ReadRemainder(lines, Next(lines, header.stop), header.line);
      var fields := FindFirst(rest, FieldsStart, FieldsEnd, true);
      if fields.Some? {
        fieldBody := fields;
      }
      var methods := FindFirst(rest, MethodsStart, MethodsEnd, true);
      if methods.Some? {
        methodBody := methods;
      }
    }
  }
}
