/**
 * The launcher's own logic: the parser of the launch arguments
 * (`-key=value`, or `-key` followed by value tokens) and the scan of one
 * target file, which finds its package and its tags and picks the
 * processors those tags name.
 */
module Launcher {
  import opened Wrappers
  import opened JavaString
  import opened LazyRegex
  import opened Collections
  import opened Templates
  import opened Data
  import opened Processors

  // ---------------------------------------------------------------------------
  // Launch arguments
  // ---------------------------------------------------------------------------

  /** The settings read so far, the key being read (null before the first `-` token) and its value. */
  datatype ArgState = ArgState(settings: map<string, string>, current: Option<string>, value: string)

  const NoArgs := ArgState(map[], None, "")

  /** The settings with the key being read put in, as a new `-` token and the end of the arguments do. */
  function Flush(st: ArgState): map<string, string> {
    if st.current.Some? then st.settings[st.current.value := st.value] else st.settings
  }

  /**
   * A token starting with `-`: `-k=v…` names the key `trim(k)` with the value
   * `trim` of the second piece of its split on `=`; `-k` names the key
   * `trim(k)` and gives no value. A token whose pieces after `-k` are all
   * empty has no second piece, and reading it throws.
   */
  function DashToken(next: string): Result<(string, Option<string>)> {
    if Contains(next, "=") then
      var split := Split(next, '=');
      if |split| == 0 then Err(ArrayIndexOutOfBounds)
      else
        var k :- SubstringFrom(split[0], 1);
        if |split| < 2 then Err(ArrayIndexOutOfBounds)
        else Ok((Trim(k), Some(Trim(split[1]))))
    else
      var k :- SubstringFrom(next, 1);
      Ok((Trim(k), None))
  }

  /** A value token with its quotes removed and trimmed. */
  function Unquoted(next: string): (r: string)
    ensures '"' !in r && '\'' !in r && IsTrimmed(r)
    ensures forall c :: c in r ==> c in next
  {
    var noDouble := Replace(next, "\"", "");
    var noQuotes := Replace(noDouble, "'", "");
    RemoveCharDeletes(next, '"');
    RemoveCharDeletes(noDouble, '\'');
    TrimDeletesNothingNew(noQuotes, '"');
    TrimDeletesNothingNew(noQuotes, '\'');
    forall c | c !in next
      ensures c !in Trim(noQuotes)
    {
      TrimDeletesNothingNew(noQuotes, c);
    }
    Trim(noQuotes)
  }

  /** One pass of loadArgs' loop. */
  function Step(st: ArgState, arg: Option<string>): Result<ArgState> {
    if arg.None? then Err(NullPointer)
    else
      var next := Trim(arg.value);
      if StartsWith(next, "-") then
        var settings := Flush(st);
        var value := if st.current.Some? then "" else st.value;
        var (k, v) :- DashToken(next);
        Ok(ArgState(settings, Some(k), if v.Some? then v.value else value))
      else if st.current.Some? then
        var value := if st.value != "" then st.value + "," else st.value;
        Ok(st.(value := value + Unquoted(next)))
      else Err(IllegalArgument)
  }

  /** The state after every token, or the exception of the first one that throws. */
  function Run(args: seq<Option<string>>): Result<ArgState> {
    if args == [] then Ok(NoArgs)
    else
      var st :- Run(args[..|args| - 1]);
      Step(st, args[|args| - 1])
  }

  /** What loadArgs returns: the settings after every token, the last key put in. */
  function ParseArgs(args: Option<seq<Option<string>>>): (r: Result<map<string, string>>)
    ensures args.None? || args == Some([]) ==> r == Ok(map[])
  {
    match args
    case None => Ok(map[])
    case Some(argv) =>
      var st :- Run(argv);
      Ok(Flush(st))
  }

  /** loadArgs */
  method LoadArgs(args: Option<seq<Option<string>>>) returns (r: Result<map<string, string>>)
    ensures r == ParseArgs(args)
  {
    var settings: map<string, string> := map[];
    if args.None? {
      return Ok(settings);
    }
    var argv := args.value;
    var currentArg: Option<string> := None;
    var currentValue := "";
    for i := 0 to |argv|
      invariant Run(argv[..i]) == Ok(ArgState(settings, currentArg, currentValue))
      invariant currentArg.None? ==> currentValue == ""
    {
      ghost var st := ArgState(settings, currentArg, currentValue);
      assert argv[..i + 1] == argv[..i] + [argv[i]];
      RunSnoc(argv[..i], argv[i]);
      StepThrows(st, argv[i]);
      if argv[i].None? {
        RunErrPersists(argv, i + 1);
        return Err(NullPointer);
      }
      var next := Trim(argv[i].value);
      if StartsWith(next, "-") {
        if currentArg.Some? {
          settings := settings[currentArg.value := currentValue];
          currentValue := "";
        }
        var token := DashToken(next);
        if token.Err? {
          RunErrPersists(argv, i + 1);
          return Err(token.error);
        }
        currentArg := Some(token.value.0);
        if token.value.1.Some? {
          currentValue := token.value.1.value;
        }
        StepDash(st, argv[i].value, token.value.0, token.value.1, currentValue);
      } else if currentArg.Some? {
        if currentValue != "" {
          currentValue := currentValue + ",";
        }
        currentValue := currentValue + Unquoted(next);
        StepValue(st, argv[i].value, currentValue);
      } else {
        RunErrPersists(argv, i + 1);
        return Err(IllegalArgument);
      }
    }
    assert argv[..|argv|] == argv;
    if currentArg.Some? {
      settings := settings[currentArg.value := currentValue];
    }
    return Ok(settings);
  }

  /** Once a token throws, the later tokens do not change the outcome. */
  lemma {:induction false} RunErrPersists(args: seq<Option<string>>, n: nat)
    requires n <= |args| && Run(args[..n]).Err?
    ensures Run(args) == Run(args[..n])
    decreases |args| - n
  {
    if n < |args| {
      assert args[..n + 1][..n] == args[..n];
      RunErrPersists(args, n + 1);
    } else {
      assert args[..n] == args;
    }
  }

  /** A trimmed token free of quotes is taken as it is. */
  lemma UnquotedPlain(next: string)
    requires '"' !in next && '\'' !in next && IsTrimmed(next)
    ensures Unquoted(next) == next
  {
    ContainsChar(next, '"');
    ReplaceAbsent(next, "\"", "");
    ContainsChar(next, '\'');
    ReplaceAbsent(next, "'", "");
    TrimTrimmed(next);
  }

  /** `-k=v` with `v` running to the end or to the next `=`: key `trim(k)`, value `trim(v)`. */
  lemma DashTokenKeyValue(k: string, v: string, tail: string)
    requires '=' !in k && '=' !in v && v != [] && (tail == [] || tail[0] == '=')
    ensures DashToken(['-'] + k + ['='] + v + tail) == Ok((Trim(k), Some(Trim(v))))
  {
    var head := ['-'] + k;
    var next := head + ['='] + v + tail;
    OccursAtChar(next, '=', |head|);
    assert Contains(next, "=");
    SplitFirstTwo(head, '=', v, tail);
    var split := Split(next, '=');
    assert split[0] == head && split[1] == v;
    SubstringFromOk(head, 1);
    assert head[1..] == k;
  }

  /** `-k=` with nothing after the `=` has a single piece: reading the value throws. */
  lemma DashTokenNoValue(k: string)
    requires '=' !in k
    ensures DashToken(['-'] + k + ['=']) == Err(ArrayIndexOutOfBounds)
  {
    var head := ['-'] + k;
    var next := head + ['='];
    OccursAtChar(next, '=', |head|);
    assert Contains(next, "=");
    SplitTrailing(head, '=');
    assert Split(next, '=') == [head];
    SubstringFromOk(head, 1);
  }

  /** `-k` without `=`: key `trim(k)` and no value of its own. */
  lemma DashTokenKeyOnly(k: string)
    requires '=' !in k
    ensures DashToken(['-'] + k) == Ok((Trim(k), None))
  {
    var next := ['-'] + k;
    ContainsChar(next, '=');
    assert !Contains(next, "=");
    SubstringFromOk(next, 1);
    assert next[1..] == k;
  }

  /** After the first token, a key is always being read. */
  lemma {:induction false} RunKeySet(args: seq<Option<string>>)
    requires args != [] && Run(args).Ok?
    ensures Run(args).value.current.Some?
  {
    var init := args[..|args| - 1];
    if init != [] {
      RunKeySet(init);
    }
  }

  /** A value token before any `-` token throws IllegalArgumentException. */
  lemma ValueFirstThrows(args: seq<Option<string>>)
    requires args != [] && args[0].Some? && !StartsWith(Trim(args[0].value), "-")
    ensures ParseArgs(Some(args)) == Err(IllegalArgument)
  {
    assert args[..1][..0] == [];
    RunErrPersists(args, 1);
  }

  /** A null token throws NullPointerException, unless an earlier token threw. */
  lemma NullThrows(args: seq<Option<string>>, i: nat)
    requires i < |args| && args[i].None? && Run(args[..i]).Ok?
    ensures ParseArgs(Some(args)) == Err(NullPointer)
  {
    assert args[..i + 1][..i] == args[..i];
    RunErrPersists(args, i + 1);
  }

  /**
   * A `-` token commits the key being read and starts its own: the result is
   * the settings so far with the new key put in, so a repeated key keeps its
   * last value, and `-k` without a value maps `k` to "".
   */
  lemma DashCommits(args: seq<Option<string>>, t: string, k: string, v: Option<string>)
    requires Run(args).Ok? && StartsWith(Trim(t), "-") && DashToken(Trim(t)) == Ok((k, v))
    ensures ParseArgs(Some(args + [Some(t)])) == Ok(ParseArgs(Some(args)).value[k := if v.Some? then v.value else ""])
  {
    if args != [] {
      RunKeySet(args);
    }
    var st := Run(args).value;
    RunSnoc(args, Some(t));
    var w := if v.Some? then v.value else "";
    StepDash(st, t, k, v, w);
    assert ParseArgs(Some(args)) == Ok(Flush(st));
  }

  lemma StepDash(st: ArgState, t: string, k: string, v: Option<string>, w: string)
    requires StartsWith(Trim(t), "-") && DashToken(Trim(t)) == Ok((k, v))
    requires st.current.None? ==> st.value == ""
    requires w == if v.Some? then v.value else ""
    ensures Step(st, Some(t)) == Ok(ArgState(Flush(st), Some(k), w))
  {
  }

  /**
   * A value token extends the value of the key being read, after a `,` when
   * that value is not empty; the other settings stay as they are.
   */
  lemma ValueJoins(args: seq<Option<string>>, t: string)
    requires Run(args).Ok? && args != [] && !StartsWith(Trim(t), "-")
    ensures var st := Run(args).value;
      && st.current.Some?
      && ParseArgs(Some(args + [Some(t)])) ==
         Ok(ParseArgs(Some(args)).value[st.current.value := (if st.value != "" then st.value + "," else "") + Unquoted(Trim(t))])
  {
    RunKeySet(args);
    var st := Run(args).value;
    var w := (if st.value != "" then st.value + "," else "") + Unquoted(Trim(t));
    RunSnoc(args, Some(t));
    StepValue(st, t, w);
    var k := st.current.value;
    assert st.settings[k := st.value][k := w] == st.settings[k := w];
  }

  lemma RunSnoc(args: seq<Option<string>>, a: Option<string>)
    ensures Run(args + [a]) == if Run(args).Ok? then Step(Run(args).value, a) else Run(args)
  {
    assert (args + [a])[..|args|] == args;
  }

  /** The tokens that throw: a null one, a `-` token whose split fails, a value with no key. */
  lemma StepThrows(st: ArgState, a: Option<string>)
    ensures a.None? ==> Step(st, a) == Err(NullPointer)
    ensures a.Some? && StartsWith(Trim(a.value), "-") && DashToken(Trim(a.value)).Err? ==>
      Step(st, a) == Err(DashToken(Trim(a.value)).error)
    ensures a.Some? && !StartsWith(Trim(a.value), "-") && st.current.None? ==> Step(st, a) == Err(IllegalArgument)
  {
  }

  lemma StepValue(st: ArgState, t: string, w: string)
    requires st.current.Some? && !StartsWith(Trim(t), "-")
    requires w == (if st.value != "" then st.value + "," else "") + Unquoted(Trim(t))
    ensures Step(st, Some(t)) == Ok(st.(value := w))
  {
  }

  // ---------------------------------------------------------------------------
  // The header of a target file
  // ---------------------------------------------------------------------------

  /** Where the header scan stops: a line that is not an import, package or tag line and holds a `{`. */
  predicate Stops(line: string) {
    !Contains(line, "import") && !Contains(line, "package") && !Contains(line, "@") && Contains(line, "{")
  }

  /** The index of the line the header scan stops at, or the number of lines. */
  function HeaderEnd(lines: seq<string>): nat {
    FirstLine(lines, 0, Stops)
  }

  /**
   * packagePattern, `package(.*?);`, matched against the whole line: the
   * line is `package`, then text `.` can match, then `;`; the package is that
   * text trimmed.
   */
  function PackageOf(line: string): Option<string> {
    if |line| >= 8 && StartsWith(line, "package") && EndsWith(line, ";") && DotMatches(line[7..|line| - 1], false)
    then Some(Trim(line[7..|line| - 1]))
    else None
  }

  /** A line the scan takes the package from. */
  predicate IsPackageLine(line: string) {
    !Contains(line, "import") && Contains(line, "package") && PackageOf(line).Some?
  }

  /** The package and the tags found so far. */
  datatype Header = Header(classPackage: Option<string>, tags: seq<string>)

  /** One line of the header scan other than the stop line. */
  function ScanLine(h: Header, line: string, scan: string -> seq<string>): Header {
    if Contains(line, "import") then h
    else if Contains(line, "package") then
      if PackageOf(line).Some? then h.(classPackage := PackageOf(line)) else h
    else if Contains(line, "@") then h.(tags := h.tags + scan(line))
    else h
  }

  /** ScanLine over every line, in order. */
  function ScanLines(lines: seq<string>, scan: string -> seq<string>): Header {
    if lines == [] then Header(None, []) else ScanLine(ScanLines(lines[..|lines| - 1], scan), lines[|lines| - 1], scan)
  }

  /** The header scan of a file: every line before the one it stops at. */
  function ScanHeader(lines: seq<string>, scan: string -> seq<string>): Header {
    ScanLines(lines[..HeaderEnd(lines)], scan)
  }

  /** The tags a line contributes: those of a tag line that is not an import or package line. */
  function LineTags(scan: string -> seq<string>): string -> seq<string> {
    line => if !Contains(line, "import") && !Contains(line, "package") && Contains(line, "@") then scan(line) else []
  }

  /** `package` + text + `;` gives back the text trimmed, when `.` matches all of it. */
  lemma PackageOfRoundTrip(g: string)
    requires DotMatches(g, false)
    ensures PackageOf("package" + g + ";") == Some(Trim(g))
  {
    var line := "package" + g + ";";
    assert line[..7] == "package";
    assert line[7..|line| - 1] == g;
    assert line[|line| - 1..] == ";";
  }

  /** A line that does not start with `package` or does not end with `;` gives no package. */
  lemma PackageOfNone(line: string)
    requires !StartsWith(line, "package") || !EndsWith(line, ";")
    ensures PackageOf(line).None?
  {
  }

  /** The scan ends at the first stop line: what follows a stop line is never read. */
  lemma HeaderIgnoresRest(lines: seq<string>, k: nat, scan: string -> seq<string>)
    requires k < |lines| && Stops(lines[k])
    ensures ScanHeader(lines, scan) == ScanHeader(lines[..k + 1], scan)
  {
    var e := HeaderEnd(lines);
    var pre := lines[..k + 1];
    forall i | 0 <= i < e
      ensures !Stops(pre[i])
    {
      assert pre[i] == lines[i];
    }
    FirstLineIs(pre, 0, Stops, e);
    assert pre[..e] == lines[..e];
  }

  /** The tags are those of every scanned line, appended in order (duplicates kept). */
  lemma {:induction false} ScanLinesTags(lines: seq<string>, scan: string -> seq<string>)
    ensures ScanLines(lines, scan).tags == Flatten(MapSeq(lines, LineTags(scan)))
  {
    if lines != [] {
      ScanLinesTags(lines[..|lines| - 1], scan);
    }
  }

  /**
   * The package is that of the last package line, and null when no line is
   * one.
   */
  lemma {:induction false} ScanLinesPackage(lines: seq<string>, scan: string -> seq<string>)
    ensures ScanLines(lines, scan).classPackage.None? <==> forall i :: 0 <= i < |lines| ==> !IsPackageLine(lines[i])
    ensures ScanLines(lines, scan).classPackage.Some? ==>
      exists i :: && 0 <= i < |lines| && IsPackageLine(lines[i])
                  && PackageOf(lines[i]) == ScanLines(lines, scan).classPackage
                  && forall j :: i < j < |lines| ==> !IsPackageLine(lines[j])
  {
    if lines != [] {
      var init, last := lines[..|lines| - 1], lines[|lines| - 1];
      ScanLinesPackage(init, scan);
      var h := ScanLines(lines, scan);
      if IsPackageLine(last) {
        assert h.classPackage == PackageOf(last);
      } else {
        assert h.classPackage == ScanLines(init, scan).classPackage;
        forall i | 0 <= i < |init|
          ensures init[i] == lines[i]
        {
        }
        if h.classPackage.Some? {
          var i :| && 0 <= i < |init| && IsPackageLine(init[i])
                   && PackageOf(init[i]) == h.classPackage
                   && forall j :: i < j < |init| ==> !IsPackageLine(init[j]);
          assert forall j :: i < j < |lines| ==> !IsPackageLine(lines[j]) by {
            forall j | i < j < |lines|
              ensures !IsPackageLine(lines[j])
            {
              if j < |init| {
                assert lines[j] == init[j];
              }
            }
          }
        }
      }
    }
  }

  // ---------------------------------------------------------------------------
  // Tags
  // ---------------------------------------------------------------------------

  /**
   * A tag `name(data)`: the name is the text before the first `(`, the data
   * the text from after it up to the last char.
   */
  function SplitTag(tag: string): (r: Result<(string, string)>)
    ensures r.Err? ==> r.error == StringIndexOutOfBounds
  {
    var fp := IndexOf(tag, "(");
    var name :- Substring(tag, 0, fp);
    var data :- Substring(tag, fp + 1, |tag| - 1);
    Ok((name, data))
  }

  /** The map the tag loop fills: every tag put under its name, in order. */
  function TagMap(tags: seq<string>): Result<map<string, string>> {
    if tags == [] then Ok(map[])
    else
      var m :- TagMap(tags[..|tags| - 1]);
      var (name, data) :- SplitTag(tags[|tags| - 1]);
      Ok(m[name := data])
  }

  /** The name and data of a tag that splits ("" and "" for one that throws). */
  function PairOf(tag: string): (string, string) {
    match SplitTag(tag)
    case Ok(p) => p
    case Err(_) => ("", "")
  }

  /** `name(data)` with no `(` in the name, closed by any char, splits back into name and data. */
  lemma SplitTagRoundTrip(name: string, data: string, x: char)
    requires '(' !in name
    ensures SplitTag(name + "(" + data + [x]) == Ok((name, data))
  {
    var tag := name + "(" + data + [x];
    OccursAtChar(tag, '(', |name|);
    forall i | 0 <= i < |name|
      ensures !OccursAt(tag, "(", i)
    {
      OccursAtChar(tag, '(', i);
      assert tag[i] == name[i];
    }
    assert IndexOf(tag, "(") == |name|;
    assert tag[..|name|] == name;
    assert tag[|name| + 1..|tag| - 1] == data;
  }

  /** A tag throws exactly when no `(` comes before its last char. */
  lemma SplitTagThrows(tag: string)
    ensures SplitTag(tag).Err? <==> forall i :: 0 <= i < |tag| - 1 ==> tag[i] != '('
  {
    var fp := IndexOf(tag, "(");
    if fp >= 0 {
      OccursAtChar(tag, '(', fp);
      forall i | 0 <= i < fp
        ensures tag[i] != '('
      {
        OccursAtChar(tag, '(', i);
      }
    } else {
      forall i | 0 <= i < |tag|
        ensures tag[i] != '('
      {
        OccursAtChar(tag, '(', i);
      }
    }
  }

  /** The tag map is built unless some tag throws. */
  lemma {:induction false} TagMapOk(tags: seq<string>)
    ensures TagMap(tags).Ok? <==> forall i :: 0 <= i < |tags| ==> SplitTag(tags[i]).Ok?
  {
    if tags != [] {
      var init := tags[..|tags| - 1];
      TagMapOk(init);
      if TagMap(tags).Ok? {
        forall i | 0 <= i < |tags|
          ensures SplitTag(tags[i]).Ok?
        {
          if i < |init| {
            assert tags[i] == init[i];
          }
        }
      }
    }
  }

  /**
   * The tag map is the HashMap of successive puts of each tag's name and
   * data, so a repeated name keeps its last data (Collections.ToMapLastWins).
   */
  lemma {:induction false} TagMapPuts(tags: seq<string>)
    requires TagMap(tags).Ok?
    ensures TagMap(tags).value == ToMap(MapSeq(tags, PairOf))
  {
    if tags != [] {
      var init := tags[..|tags| - 1];
      TagMapPuts(init);
      ToMapSnoc(MapSeq(init, PairOf), PairOf(tags[|tags| - 1]));
    }
  }

  // ---------------------------------------------------------------------------
  // handleFile
  // ---------------------------------------------------------------------------

  /** What the scan of a `.java` target file yields. */
  datatype Target = Target(className: string, classPackage: Option<string>, annotations: map<string, string>)

  /**
   * The scan of one target file: None for a file whose name does not end in
   * `.java`; otherwise its class name, its package and its tag map, or the
   * exception a malformed tag throws.
   */
  function ScanFile(fileName: string, lines: seq<string>, scan: string -> seq<string>): (r: Result<Option<Target>>)
    ensures r == Ok(None) <==> !EndsWith(fileName, ".java")
    ensures r.Ok? && r.value.Some? ==> fileName == r.value.value.className + ".java"
  {
    if !EndsWith(fileName, ".java") then Ok(None)
    else
      var h := ScanHeader(lines, scan);
      var m :- TagMap(h.tags);
      assert fileName == fileName[..|fileName| - 5] + ".java";
      Ok(Some(Target(fileName[..|fileName| - 5], h.classPackage, m)))
  }

  /** The processors whose annotationKey is a tag of the file, in list order. */
  function Selected(processors: seq<Processor>, m: map<string, string>): seq<Processor> {
    if processors == [] then []
    else
      var init := Selected(processors[..|processors| - 1], m);
      var p := processors[|processors| - 1];
      if p.annotationKey in m then init + [p] else init
  }

  /** A processor is selected exactly when it is listed and its key is a tag. */
  lemma {:induction false} SelectedExact(processors: seq<Processor>, m: map<string, string>, p: Processor)
    ensures p in Selected(processors, m) <==> p in processors && p.annotationKey in m
  {
    if processors != [] {
      var init := processors[..|processors| - 1];
      SelectedExact(init, m, p);
      assert processors == init + [processors[|processors| - 1]];
    }
  }

  /** Each entry: the processor, and a new BuildData with the file's tags, package and class name. */
  predicate Dispatches(d: seq<(Processor, BuildData)>, procs: seq<Processor>, t: Target)
    reads set i | 0 <= i < |d| :: d[i].1
  {
    && |d| == |procs|
    && forall i :: 0 <= i < |d| ==>
      && d[i].0 == procs[i]
      && d[i].1.annotations == t.annotations
      && d[i].1.classPackage == t.classPackage
      && d[i].1.className == t.className
      && d[i].1.outputClassName.None?
      && d[i].1.outputClassPackage == t.classPackage
  }

  /**
   * handleFile: scans the header of a `.java` file, splits its tags and hands
   * each processor whose key is among them a BuildData of its own. Returns
   * those hand-overs in order (Processor.handleFile itself is abstract).
   */
  method HandleFile(fileName: string, lines: seq<string>, allProcessors: seq<Processor>, scan: string -> seq<string>)
    returns (r: Result<seq<(Processor, BuildData)>>)
    ensures r.Ok? <==> ScanFile(fileName, lines, scan).Ok?
    ensures r.Err? ==> r.error == ScanFile(fileName, lines, scan).error
    ensures r.Ok? && ScanFile(fileName, lines, scan).value.None? ==> r.value == []
    ensures r.Ok? && ScanFile(fileName, lines, scan).value.Some? ==>
      var t := ScanFile(fileName, lines, scan).value.value;
      && Dispatches(r.value, Selected(allProcessors, t.annotations), t)
      && forall i :: 0 <= i < |r.value| ==> fresh(r.value[i].1)
  {
    if !EndsWith(fileName, ".java") {
      return Ok([]);
    }
    var fileClassName := fileName[..|fileName| - 5];
    var header := ReadHeader(lines, scan);
    var annotationToData := ReadTags(header.tags);
    if annotationToData.Err? {
      return Err(annotationToData.error);
    }
    var handed := HandOver(allProcessors, Target(fileClassName, header.classPackage, annotationToData.value));
    return Ok(handed);
  }

  /** handleFile's read loop: the package and tags of the lines before the stop line. */
  method ReadHeader(lines: seq<string>, scan: string -> seq<string>) returns (h: Header)
    ensures h == ScanHeader(lines, scan)
  {
    var classPackage: Option<string> := None;
    var annotations: seq<string> := [];
    var i := 0;
    while i < |lines|
      invariant i <= |lines|
      invariant forall j :: 0 <= j < i ==> !Stops(lines[j])
      invariant ScanLines(lines[..i], scan) == Header(classPackage, annotations)
    {
      var line := lines[i];
      assert lines[..i + 1][..i] == lines[..i];
      if !Contains(line, "import") {
        if Contains(line, "package") {
          var p := PackageOf(line);
          if p.Some? {
            classPackage := p;
          }
        } else if Contains(line, "@") {
          annotations := annotations + scan(line);
        } else if Contains(line, "{") {
          break;
        }
      }
      i := i + 1;
    }
    FirstLineIs(lines, 0, Stops, i);
    return Header(classPackage, annotations);
  }

  /** handleFile's tag loop: each tag split at its first `(` and put into the map. */
  method ReadTags(annotations: seq<string>) returns (r: Result<map<string, string>>)
    ensures r == TagMap(annotations)
  {
    var annotationToData: map<string, string> := map[];
    for k := 0 to |annotations|
      invariant TagMap(annotations[..k]) == Ok(annotationToData)
    {
      var tag := annotations[k];
      assert annotations[..k + 1][..k] == annotations[..k];
      var firstParn := IndexOf(tag, "(");
      var annotation := Substring(tag, 0, firstParn);
      if annotation.Err? {
        TagMapErrPersists(annotations, k + 1);
        return Err(annotation.error);
      }
      var data := Substring(tag, firstParn + 1, |tag| - 1);
      if data.Err? {
        TagMapErrPersists(annotations, k + 1);
        return Err(data.error);
      }
      annotationToData := annotationToData[annotation.value := data.value];
    }
    assert annotations[..|annotations|] == annotations;
    return Ok(annotationToData);
  }

  /** handleFile's processor loop: a new BuildData for every processor whose key is a tag. */
  method HandOver(allProcessors: seq<Processor>, t: Target) returns (handed: seq<(Processor, BuildData)>)
    ensures Dispatches(handed, Selected(allProcessors, t.annotations), t)
    ensures forall j :: 0 <= j < |handed| ==> fresh(handed[j].1)
  {
    handed := [];
    for k := 0 to |allProcessors|
      invariant Dispatches(handed, Selected(allProcessors[..k], t.annotations), t)
      invariant forall j :: 0 <= j < |handed| ==> fresh(handed[j].1)
    {
      assert allProcessors[..k + 1][..k] == allProcessors[..k];
      var processor := allProcessors[k];
      if processor.annotationKey in t.annotations {
        var buildData := new BuildData(t.annotations, t.classPackage, t.className);
        handed := handed + [(processor, buildData)];
      }
    }
    assert allProcessors[..|allProcessors|] == allProcessors;
  }

  /** Once a tag throws, the later tags do not change the outcome. */
  lemma {:induction false} TagMapErrPersists(tags: seq<string>, n: nat)
    requires n <= |tags| && TagMap(tags[..n]).Err?
    ensures TagMap(tags) == TagMap(tags[..n])
    decreases |tags| - n
  {
    if n < |tags| {
      assert tags[..n + 1][..n] == tags[..n];
      TagMapErrPersists(tags, n + 1);
    } else {
      assert tags[..n] == tags;
    }
  }
}
