/**
 * A processor composes one generated class from a list of templates: the
 * disclaimer, the package line, the imports of the wrapped class and of the
 * templates, the class header with the templates' interfaces, and the
 * templates' field and method sections. It also keeps the registry of the
 * templates it has loaded, by key.
 *
 * Each part is specified by a function that takes the text built so far
 * (the StringBuilder) and returns it extended; the methods of Processor
 * build the same text with the loops of the original.
 */
module Processors {
  import opened Wrappers
  import opened JavaString
  import opened Collections
  import opened Templates
  import opened Data

  // ---------------------------------------------------------------------------
  // The output name
  // ---------------------------------------------------------------------------

  /** A name with a `.` splits at its last `.` into a package part and a class part without dots. */
  lemma LastDotSplit(name: string)
    requires Contains(name, ".")
    ensures var d := LastIndexOf(name, ".");
      && 0 <= d < |name| && name[d] == '.' && '.' !in name[d + 1..]
      && name[..d] + "." + name[d + 1..] == name
  {
    var d := LastIndexOf(name, ".");
    OccursAtChar(name, '.', d);
    var tail := name[d + 1..];
    forall j | 0 <= j < |tail|
      ensures tail[j] != '.'
    {
      assert tail[j] == name[d + 1 + j];
      OccursAtChar(name, '.', d + 1 + j);
    }
    assert name[d..] == "." + name[d + 1..];
    assert name == name[..d] + name[d..];
  }

  /**
   * The output class name and package after build's name resolution: a name
   * with a `.` is a path whose last segment is the class; a leading `.` makes
   * that path relative to the output package held before, otherwise it
   * replaces it; a plain name is placed in the target's own package.
   */
  function ResolveName(name: string, outputPackage: Option<string>, classPackage: Option<string>): (r: (string, Option<string>))
    ensures Contains(name, ".") ==> '.' !in r.0 && r.1.Some?
    ensures Contains(name, ".") && !StartsWith(name, ".") ==> r.1.value + "." + r.0 == name
    ensures StartsWith(name, ".") ==> r.1.Some? && r.1.value + "." + r.0 == Show(outputPackage) + name
    ensures !Contains(name, ".") ==> r == (name, classPackage)
  {
    if Contains(name, ".") then
      var d := LastIndexOf(name, ".");
      LastDotSplit(name);
      var prefix := if StartsWith(name, ".") then Show(outputPackage) else "";
      assert prefix + name[..d] + "." + name[d + 1..] == prefix + name;
      (name[d + 1..], Some(prefix + name[..d]))
    else
      assert StartsWith(name, ".") ==> OccursAt(name, ".", 0);
      (name, classPackage)
  }

  /** Where the generated file goes, relative to the output folder (a null package has no path: `replace` throws). */
  function OutputPath(outputPackage: string, name: Option<string>, separator: string): string {
    Replace(outputPackage, ".", separator) + separator + Show(name) + ".java"
  }

  // ---------------------------------------------------------------------------
  // The disclaimer and the imports
  // ---------------------------------------------------------------------------

  /** The comment block at the top of every generated file, stamped with the user name. */
  function Disclaimer(userName: Option<string>): string {
    "//=======================================================\n"
    + "//DISCLAIMER: THIS IS A GENERATED CLASS FILE\n"
    + "//THUS IS PROVIDED 'AS-IS' WITH NO WARRANTY\n"
    + "//FUNCTIONALITY CAN NOT BE GUARANTIED IN ANY WAY \n"
    + "//USE AT YOUR OWN RISK \n"
    + "//-------------------------------------------------------\n"
    + "//Built on: " + Show(userName) + "\n"
    + "//=======================================================\n"
  }

  /** The import of the class being wrapped. */
  function WrappedImport(classPackage: Option<string>, className: string): string {
    Show(classPackage) + "." + className
  }

  /** The imports of each template in turn; a null template gives none. */
  function ImportLists(ts: seq<Option<TemplateState>>): (r: seq<seq<string>>)
    ensures |r| == |ts|
    ensures forall i :: 0 <= i < |ts| ==> r[i] == (if ts[i].Some? then ts[i].value.imports else [])
  {
    if ts == [] then []
    else ImportLists(ts[..|ts| - 1]) + [if ts[|ts| - 1].Some? then ts[|ts| - 1].value.imports else []]
  }

  /** The list createImports writes: the wrapped class, then each template import not yet listed. */
  function ImportList(classPackage: Option<string>, className: string, ts: seq<Option<TemplateState>>): (r: seq<string>)
    ensures |r| >= 1 && r[0] == WrappedImport(classPackage, className)
    ensures NoDuplicates(r)
    ensures forall i :: 0 <= i < |r| ==> r[i] == WrappedImport(classPackage, className) || r[i] in Flatten(ImportLists(ts))
  {
    AddAllProps([WrappedImport(classPackage, className)], Flatten(ImportLists(ts)));
    AddAll([WrappedImport(classPackage, className)], Flatten(ImportLists(ts)))
  }

  /** The line that imports `x`. */
  function ImportStatement(x: string): string {
    "import " + x + ";\n"
  }

  /** `builder` followed by `import X;` for every X of `imports` not in `ignored`. */
  function ImportLines(builder: string, imports: seq<string>, ignored: seq<string>): string {
    if imports == [] then builder
    else
      var b := ImportLines(builder, imports[..|imports| - 1], ignored);
      var x := imports[|imports| - 1];
      if x in ignored then b else b + ImportStatement(x)
  }

  // ---------------------------------------------------------------------------
  // The class header
  // ---------------------------------------------------------------------------

  /** Every template is non-null. */
  predicate AllPresent(ts: seq<Option<TemplateState>>) {
    forall i :: 0 <= i < |ts| ==> ts[i].Some?
  }

  /** The interfaces of each template in turn. */
  function InterfaceLists(ts: seq<Option<TemplateState>>): (r: seq<seq<string>>)
    ensures |r| == |ts|
    ensures forall i :: 0 <= i < |ts| ==> r[i] == (if ts[i].Some? then ts[i].value.interfaces else [])
  {
    if ts == [] then []
    else InterfaceLists(ts[..|ts| - 1]) + [if ts[|ts| - 1].Some? then ts[|ts| - 1].value.interfaces else []]
  }

  /** The interfaces the class implements: every template interface, first-seen, once; a null template throws. */
  function InterfaceList(ts: seq<Option<TemplateState>>): (r: Result<seq<string>>)
    ensures r.Err? <==> !AllPresent(ts)
    ensures r.Err? ==> r.error == NullPointer
    ensures r.Ok? ==> NoDuplicates(r.value)
    ensures r.Ok? ==> forall i :: 0 <= i < |r.value| ==> r.value[i] in Flatten(InterfaceLists(ts))
  {
    AddAllProps([], Flatten(InterfaceLists(ts)));
    if AllPresent(ts) then Ok(AddAll([], Flatten(InterfaceLists(ts)))) else Err(NullPointer)
  }

  /** `builder` followed by the first `n` names, each but the last followed by `, `. */
  function Listed(builder: string, names: seq<string>, n: nat): string
    requires n <= |names|
  {
    if n == 0 then builder
    else
      var b := Listed(builder, names, n - 1) + names[n - 1];
      if n - 1 != |names| - 1 then b + ", " else b
  }

  /** `builder` followed by `public class N extends S`, and ` implements I1, I2…` when there are interfaces. */
  function ClassHeader(builder: string, name: Option<string>, classToExtend: string, interfaces: seq<string>): string {
    var b := builder + "public class " + Show(name) + " extends " + classToExtend;
    if interfaces == [] then b else Listed(b + " implements ", interfaces, |interfaces|)
  }

  // ---------------------------------------------------------------------------
  // The body
  // ---------------------------------------------------------------------------

  /** `builder` followed by a line `\t<trim(p)>;` for every non-empty piece p. */
  function FieldLines(builder: string, pieces: seq<string>): string {
    if pieces == [] then builder
    else
      var b := FieldLines(builder, pieces[..|pieces| - 1]);
      var p := pieces[|pieces| - 1];
      if p == "" then b else b + "\t" + Trim(p) + ";\n"
  }

  /** The line that opens a template's field block, naming its key. */
  function FieldBanner(key: Option<string>): string {
    "\t//Fields from " + Show(key) + "\n"
  }

  /** A template's field block: the banner, then its field body cut at every `;`. */
  function FieldBlock(builder: string, key: Option<string>, fieldBody: Option<string>): string {
    match fieldBody
    case None => builder
    case Some(f) => FieldLines(builder + FieldBanner(key), Split(f, ';'))
  }

  /** A template's method section: a banner naming its key, a blank line, then its method body as it is. */
  function MethodText(key: Option<string>, methodBody: string): string {
    "\t//============================\n\t//==Methods:" + Show(key) + "\n\t//============================\n"
    + "\n" + methodBody + "\n"
  }

  function MethodBlock(builder: string, key: Option<string>, methodBody: Option<string>): string {
    match methodBody
    case None => builder
    case Some(m) => builder + MethodText(key, m)
  }

  function FieldBlocks(builder: string, ts: seq<Option<TemplateState>>): string
    requires AllPresent(ts)
  {
    if ts == [] then builder
    else
      var st := ts[|ts| - 1].value;
      FieldBlock(FieldBlocks(builder, ts[..|ts| - 1]), st.key, st.fieldBody)
  }

  function MethodBlocks(builder: string, ts: seq<Option<TemplateState>>): string
    requires AllPresent(ts)
  {
    if ts == [] then builder
    else
      var st := ts[|ts| - 1].value;
      MethodBlock(MethodBlocks(builder, ts[..|ts| - 1]), st.key, st.methodBody)
  }

  /** createBody: every field block, then every method block, in template order. */
  function ClassBody(builder: string, ts: seq<Option<TemplateState>>): string
    requires AllPresent(ts)
  {
    MethodBlocks(FieldBlocks(builder, ts), ts)
  }

  // ---------------------------------------------------------------------------
  // The whole file
  // ---------------------------------------------------------------------------

  datatype Output = Output(text: string, path: string)

  /**
   * The generated file for resolved `name` and `outputPackage`, after the
   * `disclaimer`; or the NullPointerException that a null template raises in
   * createClassHeader, or that a null output package raises when the path
   * is built.
   */
  function Compose(ts: seq<Option<TemplateState>>, classPackage: Option<string>, className: string,
                   name: Option<string>, outputPackage: Option<string>, classToExtend: string,
                   disclaimer: string, separator: string): (r: Result<Output>)
    ensures r.Err? <==> !AllPresent(ts) || outputPackage.None?
    ensures r.Err? ==> r.error == NullPointer
  {
    var interfaces :- InterfaceList(ts);
    var header := ClassHeader(Head(ts, classPackage, className, outputPackage, disclaimer), name, classToExtend, interfaces);
    var text := ClassBody(header + "\n{\n", ts) + "}";
    if outputPackage.None? then Err(NullPointer)
    else Ok(Output(text, OutputPath(outputPackage.value, name, separator)))
  }

  /** The text before the class header: disclaimer, package line and imports. */
  function Head(ts: seq<Option<TemplateState>>, classPackage: Option<string>, className: string,
                outputPackage: Option<string>, disclaimer: string): string {
    var top := disclaimer + "package " + Show(outputPackage) + ";\n" + "\n";
    ImportLines(top, ImportList(classPackage, className, ts), []) + "\n"
  }

  /** A template `t` as the value the processor reads, or None for null. */
  function Snapshot(ts: seq<Template?>): (r: seq<Option<TemplateState>>)
    reads ts
    ensures |r| == |ts|
    ensures forall i :: 0 <= i < |ts| ==> r[i] == (if ts[i] == null then None else Some(ts[i].State()))
  {
    if ts == [] then []
    else
      var t := ts[|ts| - 1];
      Snapshot(ts[..|ts| - 1]) + [if t == null then None else Some(t.State())]
  }

  // ---------------------------------------------------------------------------
  // The template registry
  // ---------------------------------------------------------------------------

  /** The pair a loaded template is registered as: only a valid one is, under its key. */
  function Added(found: bool, st: TemplateState): seq<(string, TemplateState)> {
    if found && st.valid && st.key.Some? then [(st.key.value, st)] else []
  }

  /** What loading one template file gives: whether it was a template, and its state. */
  type FileLoad = seq<string> -> Result<(bool, TemplateState)>

  /** loadFile on a fresh Template made with the processor's key. */
  function Loader(key: string, scan: string -> seq<string>): FileLoad {
    lines => Load(Fresh, key, lines, scan)
  }

  /**
   * The (key, template) pairs loadTemplates registers, one file after
   * another: a file loaded as a valid template is registered under its key;
   * one that returns null or is invalid is skipped; the first one that throws
   * ends the run (the program exits).
   */
  function Registered(load: FileLoad, files: seq<seq<string>>): Result<seq<(string, TemplateState)>> {
    if files == [] then Ok([])
    else
      var ps :- Registered(load, files[..|files| - 1]);
      var (found, st) :- load(files[|files| - 1]);
      Ok(ps + Added(found, st))
  }

  class Processor {
    /** The tag that selects this processor for a target file. */
    const annotationKey: string
    /** The tag that gives a template its key. */
    const templateAnnotationKey: string
    const classToExtend: string
    var templateMap: map<string, Template>

    constructor (annotationKey: string, templateAnnotationKey: string, classToExtend: string)
      ensures this.annotationKey == annotationKey
      ensures this.templateAnnotationKey == templateAnnotationKey
      ensures this.classToExtend == classToExtend
      ensures templateMap == map[]
    {
      this.annotationKey := annotationKey;
      this.templateAnnotationKey := templateAnnotationKey;
      this.classToExtend := classToExtend;
      templateMap := map[];
    }

    /**
     * Loads one template per file into the registry: a later template with
     * the same key replaces an earlier one; keys not loaded keep their
     * template. Err is the exception that stopped the run.
     */
    method LoadTemplates(files: seq<seq<string>>, scan: string -> seq<string>) returns (r: Result<()>)
      modifies this
      ensures r.Ok? <==> Registered(Loader(templateAnnotationKey, scan), files).Ok?
      ensures r.Err? ==> r.error == Registered(Loader(templateAnnotationKey, scan), files).error
      ensures r.Ok? ==> var reg := ToMap(Registered(Loader(templateAnnotationKey, scan), files).value);
        && templateMap.Keys == old(templateMap).Keys + reg.Keys
        && (forall k :: k in reg ==> templateMap[k].State() == reg[k])
        && (forall k :: k in old(templateMap) && k !in reg ==> templateMap[k] == old(templateMap)[k])
    {
      ghost var ps: seq<(string, TemplateState)> := [];
      ghost var pairs: seq<(string, Template)> := [];
      for i := 0 to |files|
        invariant Registered(Loader(templateAnnotationKey, scan), files[..i]) == Ok(ps)
        invariant templateMap == old(templateMap) + ToMap(pairs)
        invariant Mirrors(pairs, ps)
      {
        var loaded;
        assert files[..i + 1][..i] == files[..i];
        loaded, ps, pairs := LoadAndRegister(files[i], scan, old(templateMap), files[..i], ps, pairs);
        if loaded.Err? {
          RegisteredErrPersists(Loader(templateAnnotationKey, scan), files, i + 1);
          return Err(loaded.error);
        }
      }
      assert files[..|files|] == files;
      MirrorsToMap(pairs, ps);
      return Ok(());
    }

    /** One pass of loadTemplates' loop: a fresh template loads `lines`, then is registered. */
    method LoadAndRegister(lines: seq<string>, scan: string -> seq<string>, ghost base: map<string, Template>,
                           ghost done: seq<seq<string>>, ghost ps: seq<(string, TemplateState)>,
                           ghost pairs: seq<(string, Template)>)
      returns (r: Result<()>, ghost ps': seq<(string, TemplateState)>, ghost pairs': seq<(string, Template)>)
      requires Registered(Loader(templateAnnotationKey, scan), done) == Ok(ps)
      requires templateMap == base + ToMap(pairs)
      requires Mirrors(pairs, ps)
      modifies this
      ensures r.Err? ==> Registered(Loader(templateAnnotationKey, scan), done + [lines]) == Err(r.error)
      ensures r.Ok? ==> Registered(Loader(templateAnnotationKey, scan), done + [lines]) == Ok(ps')
      ensures r.Ok? ==> templateMap == base + ToMap(pairs')
      ensures r.Ok? ==> Mirrors(pairs', ps')
    {
      ghost var load := Loader(templateAnnotationKey, scan);
      var template, found, outcome := LoadOne(lines, scan);
      r, ps', pairs' := Register(lines, template, found, load, outcome, base, done, ps, pairs);
    }

    /**
     * One pass of loadTemplates' loop after the load: the template is put in
     * the registry when it was found and is valid. `done` are the files the
     * earlier passes loaded, `outcome` what `load` gave for this one.
     */
    method Register(lines: seq<string>, template: Template, found: Result<bool>, ghost load: FileLoad,
                    ghost outcome: Result<(bool, TemplateState)>, ghost base: map<string, Template>,
                    ghost done: seq<seq<string>>, ghost ps: seq<(string, TemplateState)>,
                    ghost pairs: seq<(string, Template)>)
      returns (r: Result<()>, ghost ps': seq<(string, TemplateState)>, ghost pairs': seq<(string, Template)>)
      requires outcome == load(lines)
      requires found.Err? <==> outcome.Err?
      requires found.Err? ==> found.error == outcome.error
      requires found.Ok? ==> found.value == outcome.value.0 && template.State() == outcome.value.1
      requires Registered(load, done) == Ok(ps)
      requires templateMap == base + ToMap(pairs)
      requires Mirrors(pairs, ps)
      modifies this
      ensures r.Err? ==> Registered(load, done + [lines]) == Err(r.error)
      ensures r.Ok? ==> Registered(load, done + [lines]) == Ok(ps')
      ensures r.Ok? ==> templateMap == base + ToMap(pairs')
      ensures r.Ok? ==> Mirrors(pairs', ps')
    {
      assert (done + [lines])[..|done|] == done;
      if found.Err? {
        return Err(found.error), ps, pairs;
      }
      ps', pairs' := ps, pairs;
      if found.value && template.valid && template.key.Some? {
        var key := template.key.value;
        MergePut(base, ToMap(pairs), key, template);
        ToMapSnoc(pairs, (key, template));
        templateMap := templateMap[key := template];
        MirrorsSnoc(pairs, ps, key, template);
        pairs', ps' := pairs + [(key, template)], ps + [(key, template.State())];
      } else {
        assert ps + [] == ps;
      }
      return Ok(()), ps', pairs';
    }

    /**
     * The body of loadTemplates' loop before registration: a fresh template
     * loads `lines`. `outcome` is what the load gave.
     */
    method LoadOne(lines: seq<string>, scan: string -> seq<string>)
      returns (template: Template, r: Result<bool>, ghost outcome: Result<(bool, TemplateState)>)
      ensures fresh(template)
      ensures outcome == Loader(templateAnnotationKey, scan)(lines)
      ensures r.Err? <==> outcome.Err?
      ensures r.Err? ==> r.error == outcome.error
      ensures r.Ok? ==> r.value == outcome.value.0 && template.State() == outcome.value.1
    {
      template := new Template(templateAnnotationKey);
      r := template.LoadFile(lines, scan);
      outcome := if r.Ok? then Ok((r.value, template.State())) else Err(r.error);
    }

    /**
     * build: resolves the output name in `data`, then composes the file. A
     * null output name throws before anything changes.
     */
    method Build(templates: seq<Template?>, data: BuildData, userName: Option<string>, separator: string) returns (r: Result<Output>)
      modifies data
      ensures old(data.outputClassName).None? ==>
        && r == Err(NullPointer)
        && data.outputClassName == old(data.outputClassName)
        && data.outputClassPackage == old(data.outputClassPackage)
      ensures old(data.outputClassName).Some? ==>
        var (name, pkg) := ResolveName(old(data.outputClassName).value, old(data.outputClassPackage), data.classPackage);
        && data.outputClassName == Some(name)
        && data.outputClassPackage == pkg
        && r == Compose(Snapshot(templates), data.classPackage, data.className, Some(name), pkg,
                        classToExtend, Disclaimer(userName), separator)
    {
      var builder := Disclaimer(userName);
      if data.outputClassName.None? {
        return Err(NullPointer);
      }
      ResolveOutputName(data);
      r := Write(builder, templates, data, separator);
    }

    /** The name resolution of build, on the output name and package held in `data`. */
    static method ResolveOutputName(data: BuildData)
      requires data.outputClassName.Some?
      modifies data
      ensures data.outputClassName.Some?
      ensures (data.outputClassName.value, data.outputClassPackage)
        == ResolveName(old(data.outputClassName).value, old(data.outputClassPackage), data.classPackage)
    {
      var name := data.outputClassName.value;
      if Contains(name, ".") {
        if !StartsWith(name, ".") {
          data.outputClassPackage := Some("");
        }
        var d := LastIndexOf(name, ".");
        data.outputClassPackage := Some(Show(data.outputClassPackage) + name[..d]);
        data.outputClassName := Some(name[d + 1..]);
      } else {
        data.outputClassPackage := data.classPackage;
      }
    }

    /** The rest of build once the names are resolved: the file text after the disclaimer, and its path. */
    method Write(disclaimer: string, templates: seq<Template?>, data: BuildData, separator: string) returns (r: Result<Output>)
      ensures r == Compose(Snapshot(templates), data.classPackage, data.className, data.outputClassName,
                           data.outputClassPackage, classToExtend, disclaimer, separator)
    {
      ghost var snap := Snapshot(templates);
      var builder := disclaimer + "package " + Show(data.outputClassPackage) + ";\n";
      builder := builder + "\n";
      builder := CreateImports(builder, templates, data);
      builder := builder + "\n";
      assert builder == Head(snap, data.classPackage, data.className, data.outputClassPackage, disclaimer);
      var header := CreateClassHeader(builder, templates, data);
      if header.Err? {
        return Err(header.error);
      }
      builder := header.value + "\n{\n";
      builder := CreateConstructor(builder, templates, data);
      builder := CreateBody(builder, templates, data);
      builder := builder + "}";
      if data.outputClassPackage.None? {
        return Err(NullPointer);
      }
      var path := Replace(data.outputClassPackage.value, ".", separator) + separator + Show(data.outputClassName) + ".java";
      return Ok(Output(builder, path));
    }

    /** createImports: the import list, each entry not ignored written as an import statement. */
    method CreateImports(builder: string, templates: seq<Template?>, data: BuildData) returns (b: string)
      ensures b == ImportLines(builder, ImportList(data.classPackage, data.className, Snapshot(templates)), [])
    {
      var imports := [WrappedImport(data.classPackage, data.className)];
      imports := CollectImports(imports, templates, data);
      var ignored := CollectIgnoredImports([], templates, data);
      b := WriteImports(builder, imports, ignored);
    }

    /** The loop of createImports: an import statement for each entry not ignored. */
    static method WriteImports(builder: string, imports: seq<string>, ignored: seq<string>) returns (b: string)
      ensures b == ImportLines(builder, imports, ignored)
    {
      b := builder;
      for i := 0 to |imports|
        invariant b == ImportLines(builder, imports[..i], ignored)
      {
        assert imports[..i + 1][..i] == imports[..i];
        if imports[i] !in ignored {
          b := b + ImportStatement(imports[i]);
        }
      }
      assert imports[..|imports|] == imports;
    }

    /** collectImports: every import of every non-null template, added when not yet listed. */
    method CollectImports(imports: seq<string>, templates: seq<Template?>, data: BuildData) returns (r: seq<string>)
      ensures r == AddAll(imports, Flatten(ImportLists(Snapshot(templates))))
    {
      ghost var snap := Snapshot(templates);
      r := imports;
      for i := 0 to |templates|
        invariant r == AddAll(imports, Flatten(ImportLists(snap[..i])))
      {
        ImportListsStep(imports, snap, i);
        assert templates[i] != null ==> snap[i] == Some(templates[i].State());
        if templates[i] != null {
          r := AddAbsent(r, templates[i].imports);
        }
      }
      assert snap[..|templates|] == snap;
    }

    /** collectIgnoredImports: the base processor ignores nothing. */
    method CollectIgnoredImports(ignored: seq<string>, templates: seq<Template?>, data: BuildData) returns (r: seq<string>)
      ensures r == ignored
    {
      r := ignored;
    }

    /** `for (x : items) if (!list.contains(x)) list.add(x);` */
    static method AddAbsent(list: seq<string>, items: seq<string>) returns (r: seq<string>)
      ensures r == AddAll(list, items)
    {
      r := list;
      for j := 0 to |items|
        invariant r == AddAll(list, items[..j])
      {
        assert items[..j + 1][..j] == items[..j];
        if items[j] !in r {
          r := r + [items[j]];
        }
      }
      assert items[..|items|] == items;
    }

    /** createClassHeader: the header line; a null template throws when its interfaces are read. */
    method CreateClassHeader(builder: string, templates: seq<Template?>, data: BuildData) returns (r: Result<string>)
      ensures r.Err? <==> !AllPresent(Snapshot(templates))
      ensures r.Err? ==> r.error == NullPointer
      ensures r.Ok? ==> r.value == ClassHeader(builder, data.outputClassName, classToExtend, InterfaceList(Snapshot(templates)).value)
    {
      var b := builder + "public class " + Show(data.outputClassName) + " extends " + classToExtend;
      var interfaces :- CollectInterfaces(templates);
      if interfaces != [] {
        b := WriteInterfaces(b + " implements ", interfaces);
      }
      return Ok(b);
    }

    /** The first loop of createClassHeader: every template's interfaces, each added once. */
    static method CollectInterfaces(templates: seq<Template?>) returns (r: Result<seq<string>>)
      ensures r == InterfaceList(Snapshot(templates))
    {
      ghost var snap := Snapshot(templates);
      var interfaces: seq<string> := [];
      for i := 0 to |templates|
        invariant AllPresent(snap[..i])
        invariant interfaces == AddAll([], Flatten(InterfaceLists(snap[..i])))
      {
        if templates[i] == null {
          assert !AllPresent(snap);
          return Err(NullPointer);
        }
        assert snap[i] == Some(templates[i].State());
        InterfaceListsStep(snap, i);
        interfaces := AddAbsent(interfaces, templates[i].interfaces);
      }
      assert snap[..|templates|] == snap;
      return Ok(interfaces);
    }

    /** The loop of createClassHeader that lists the interfaces, `, ` between them. */
    static method WriteInterfaces(builder: string, names: seq<string>) returns (b: string)
      ensures b == Listed(builder, names, |names|)
    {
      b := builder;
      for i := 0 to |names|
        invariant b == Listed(builder, names, i)
      {
        b := b + names[i];
        if i != |names| - 1 {
          b := b + ", ";
        }
      }
    }

    /** createConstructor: the base processor writes no constructor. */
    method CreateConstructor(builder: string, templates: seq<Template?>, data: BuildData) returns (b: string)
      ensures b == builder
    {
      b := builder;
    }

    /**
     * createBody: the field blocks of all templates, then their method
     * blocks. It is reached only once createClassHeader has read every
     * template, so none is null.
     */
    method CreateBody(builder: string, templates: seq<Template?>, data: BuildData) returns (b: string)
      requires AllPresent(Snapshot(templates))
      ensures b == ClassBody(builder, Snapshot(templates))
    {
      ghost var snap := Snapshot(templates);
      b := builder;
      for i := 0 to |templates|
        invariant b == FieldBlocks(builder, snap[..i])
      {
        BlocksStep(builder, snap, i);
        b := WriteFieldBlock(b, templates[i].key, templates[i].fieldBody);
      }
      assert snap[..|templates|] == snap;
      ghost var fields := b;
      for i := 0 to |templates|
        invariant b == MethodBlocks(fields, snap[..i])
      {
        BlocksStep(fields, snap, i);
        b := WriteMethodBlock(b, templates[i].key, templates[i].methodBody);
      }
    }

    /** The first loop of createBody, for one template. */
    static method WriteFieldBlock(builder: string, key: Option<string>, fieldBody: Option<string>) returns (b: string)
      ensures b == FieldBlock(builder, key, fieldBody)
    {
      b := builder;
      if fieldBody.Some? {
        b := b + FieldBanner(key);
        b := AddFieldLines(b, Split(fieldBody.value, ';'));
      }
    }

    /** The second loop of createBody, for one template. */
    static method WriteMethodBlock(builder: string, key: Option<string>, methodBody: Option<string>) returns (b: string)
      ensures b == MethodBlock(builder, key, methodBody)
    {
      b := builder;
      if methodBody.Some? {
        b := b + MethodText(key, methodBody.value);
      }
    }

    /** The field loop of createBody: a line for every non-empty piece. */
    static method AddFieldLines(builder: string, pieces: seq<string>) returns (b: string)
      ensures b == FieldLines(builder, pieces)
    {
      b := builder;
      for j := 0 to |pieces|
        invariant b == FieldLines(builder, pieces[..j])
      {
        assert pieces[..j + 1][..j] == pieces[..j];
        if pieces[j] != "" {
          b := b + "\t" + Trim(pieces[j]) + ";\n";
        }
      }
      assert pieces[..|pieces|] == pieces;
    }
  }

  /** One more template in collectImports adds its imports, or nothing for null. */
  lemma ImportListsStep(imports: seq<string>, ts: seq<Option<TemplateState>>, i: nat)
    requires i < |ts|
    ensures AddAll(imports, Flatten(ImportLists(ts[..i + 1])))
      == AddAll(AddAll(imports, Flatten(ImportLists(ts[..i]))), if ts[i].Some? then ts[i].value.imports else [])
  {
    assert ts[..i + 1][..i] == ts[..i];
    AddAllAppend(imports, Flatten(ImportLists(ts[..i])), if ts[i].Some? then ts[i].value.imports else []);
  }

  /** One more non-null template in createClassHeader adds its interfaces. */
  lemma InterfaceListsStep(ts: seq<Option<TemplateState>>, i: nat)
    requires i < |ts| && ts[i].Some? && AllPresent(ts[..i])
    ensures AllPresent(ts[..i + 1])
    ensures AddAll([], Flatten(InterfaceLists(ts[..i + 1])))
      == AddAll(AddAll([], Flatten(InterfaceLists(ts[..i]))), ts[i].value.interfaces)
  {
    assert ts[..i + 1][..i] == ts[..i];
    AddAllAppend([], Flatten(InterfaceLists(ts[..i])), ts[i].value.interfaces);
  }

  /** One more template in either loop of createBody adds its block. */
  lemma BlocksStep(builder: string, ts: seq<Option<TemplateState>>, i: nat)
    requires i < |ts| && AllPresent(ts)
    ensures AllPresent(ts[..i]) && AllPresent(ts[..i + 1])
    ensures FieldBlocks(builder, ts[..i + 1])
      == FieldBlock(FieldBlocks(builder, ts[..i]), ts[i].value.key, ts[i].value.fieldBody)
    ensures MethodBlocks(builder, ts[..i + 1])
      == MethodBlock(MethodBlocks(builder, ts[..i]), ts[i].value.key, ts[i].value.methodBody)
  {
    assert ts[..i + 1][..i] == ts[..i];
  }

  /** Once a file throws, the later files do not change the outcome of the run. */
  lemma {:induction false} RegisteredErrPersists(load: FileLoad, files: seq<seq<string>>, n: nat)
    requires n <= |files| && Registered(load, files[..n]).Err?
    ensures Registered(load, files) == Registered(load, files[..n])
    decreases |files| - n
  {
    if n < |files| {
      assert files[..n + 1][..n] == files[..n];
      RegisteredErrPersists(load, files, n + 1);
    } else {
      assert files[..n] == files;
    }
  }

  /** `pairs` registers, key for key, templates whose states are those of `ps`. */
  ghost predicate Mirrors(pairs: seq<(string, Template)>, ps: seq<(string, TemplateState)>)
    reads set j | 0 <= j < |pairs| :: pairs[j].1
  {
    |pairs| == |ps| && forall j :: 0 <= j < |pairs| ==> pairs[j].0 == ps[j].0 && pairs[j].1.State() == ps[j].1
  }

  lemma MirrorsSnoc(pairs: seq<(string, Template)>, ps: seq<(string, TemplateState)>, key: string, t: Template)
    requires Mirrors(pairs, ps)
    ensures Mirrors(pairs + [(key, t)], ps + [(key, t.State())])
  {
  }

  /** The map of the registered templates has the keys, and the states, of the map of `ps`. */
  lemma {:induction false} MirrorsToMap(pairs: seq<(string, Template)>, ps: seq<(string, TemplateState)>)
    requires Mirrors(pairs, ps)
    ensures ToMap(pairs).Keys == ToMap(ps).Keys
    ensures forall k :: k in ToMap(pairs) ==> ToMap(pairs)[k].State() == ToMap(ps)[k]
  {
    if pairs != [] {
      var n := |pairs| - 1;
      assert Mirrors(pairs[..n], ps[..n]);
      MirrorsToMap(pairs[..n], ps[..n]);
    }
  }


  // ---------------------------------------------------------------------------
  // What the composed text consists of
  // ---------------------------------------------------------------------------

  /** The line createImports writes for `x`: nothing when it is ignored. */
  function ImportLine(ignored: seq<string>): string -> string {
    x => if x in ignored then "" else ImportStatement(x)
  }

  /** createImports' loop appends, in list order, an `import X;` line for every import not ignored. */
  lemma {:induction false} ImportLinesText(builder: string, imports: seq<string>, ignored: seq<string>)
    ensures ImportLines(builder, imports, ignored) == builder + Concat(MapSeq(imports, ImportLine(ignored)))
  {
    if imports != [] {
      var init, x := imports[..|imports| - 1], imports[|imports| - 1];
      ImportLinesText(builder, init, ignored);
      ConcatSnoc(MapSeq(init, ImportLine(ignored)), ImportLine(ignored)(x));
    }
  }

  /** The names of `names` with `, ` between neighbours: the implements list. */
  lemma ListedJoin(builder: string, names: seq<string>)
    ensures Listed(builder, names, |names|) == builder + Join(names, ", ")
  {
    if names != [] {
      ListedPrefix(builder, names, |names|);
      assert names[..|names|] == names;
    }
  }

  lemma {:induction false} ListedPrefix(builder: string, names: seq<string>, n: nat)
    requires 1 <= n <= |names|
    ensures Listed(builder, names, n) == builder + Join(names[..n], ", ") + (if n != |names| then ", " else "")
  {
    if n == 1 {
      assert Join(names[..1], ", ") == names[0];
    } else {
      ListedPrefix(builder, names, n - 1);
      assert names[..n] == names[..n - 1] + [names[n - 1]];
      JoinSnoc(names[..n - 1], names[n - 1], ", ");
    }
  }

  /** The class header names the class and its supertype, and lists the interfaces only when there are some. */
  lemma ClassHeaderText(builder: string, name: Option<string>, classToExtend: string, interfaces: seq<string>)
    ensures var decl := builder + "public class " + Show(name) + " extends " + classToExtend;
      ClassHeader(builder, name, classToExtend, interfaces)
        == if interfaces == [] then decl else decl + " implements " + Join(interfaces, ", ")
  {
    ListedJoin(builder + "public class " + Show(name) + " extends " + classToExtend + " implements ", interfaces);
  }

  /** The line createBody writes for a piece of a field body: `\t<trimmed piece>;`, or nothing for an empty piece. */
  function FieldLine(p: string): string {
    if p == "" then "" else "\t" + Trim(p) + ";\n"
  }

  lemma {:induction false} FieldLinesText(builder: string, pieces: seq<string>)
    ensures FieldLines(builder, pieces) == builder + Concat(MapSeq(pieces, FieldLine))
  {
    if pieces != [] {
      var init, p := pieces[..|pieces| - 1], pieces[|pieces| - 1];
      FieldLinesText(builder, init);
      ConcatSnoc(MapSeq(init, FieldLine), FieldLine(p));
    }
  }

  /**
   * The emptiness test comes before the trim: a piece of nothing but blanks
   * still gives a line, and that line is the bare `;`.
   */
  lemma FieldLineBlank(piece: string)
    requires piece != [] && forall i :: 0 <= i < |piece| ==> IsTrimmable(piece[i])
    ensures FieldLine(piece) == "\t;\n"
  {
    TrimPadded(piece, "", "");
    assert piece + "" + "" == piece;
  }

  /** The text of a template's field block: the banner and a line per non-empty piece. */
  function FieldBlockOf(t: Option<TemplateState>): string {
    if t.Some? && t.value.fieldBody.Some?
    then FieldBanner(t.value.key) + Concat(MapSeq(Split(t.value.fieldBody.value, ';'), FieldLine))
    else ""
  }

  /** The text of a template's method block. */
  function MethodBlockOf(t: Option<TemplateState>): string {
    if t.Some? && t.value.methodBody.Some? then MethodText(t.value.key, t.value.methodBody.value) else ""
  }

  /** A template's field block does not depend on the text before it. */
  lemma FieldBlockAppends(builder: string, t: Option<TemplateState>)
    requires t.Some?
    ensures FieldBlock(builder, t.value.key, t.value.fieldBody) == builder + FieldBlockOf(t)
  {
    if t.value.fieldBody.Some? {
      var pieces := Split(t.value.fieldBody.value, ';');
      FieldLinesText(builder + FieldBanner(t.value.key), pieces);
      AppendAssoc(builder, FieldBanner(t.value.key), Concat(MapSeq(pieces, FieldLine)));
    } else {
      assert builder + "" == builder;
    }
  }

  /** The first loop of createBody writes each template's field block, in template order. */
  lemma {:induction false} FieldBlocksText(builder: string, ts: seq<Option<TemplateState>>)
    requires AllPresent(ts)
    ensures FieldBlocks(builder, ts) == builder + Concat(MapSeq(ts, FieldBlockOf))
  {
    if ts != [] {
      var init, st := ts[..|ts| - 1], ts[|ts| - 1].value;
      assert AllPresent(init);
      FieldBlocksText(builder, init);
      FieldBlockAppends(FieldBlocks(builder, init), ts[|ts| - 1]);
      ConcatSnoc(MapSeq(init, FieldBlockOf), FieldBlockOf(ts[|ts| - 1]));
      AppendAssoc(builder, Concat(MapSeq(init, FieldBlockOf)), FieldBlockOf(ts[|ts| - 1]));
    }
  }

  /** The second loop of createBody writes each template's method block, in template order. */
  lemma {:induction false} MethodBlocksText(builder: string, ts: seq<Option<TemplateState>>)
    requires AllPresent(ts)
    ensures MethodBlocks(builder, ts) == builder + Concat(MapSeq(ts, MethodBlockOf))
  {
    if ts != [] {
      var init, st := ts[..|ts| - 1], ts[|ts| - 1].value;
      assert AllPresent(init);
      MethodBlocksText(builder, init);
      if st.methodBody.None? {
        assert MethodBlocks(builder, init) + "" == MethodBlocks(builder, init);
      }
      ConcatSnoc(MapSeq(init, MethodBlockOf), MethodBlockOf(ts[|ts| - 1]));
      AppendAssoc(builder, Concat(MapSeq(init, MethodBlockOf)), MethodBlockOf(ts[|ts| - 1]));
    }
  }

  /**
   * The generated file, part by part: the disclaimer, the package line, the
   * import lines, the class header, the opening brace, every field block,
   * every method block and the closing brace; and it is written under the
   * output package's folders. With no output package there is no path, and
   * building it throws.
   */
  lemma ComposeText(ts: seq<Option<TemplateState>>, classPackage: Option<string>, className: string,
                    name: Option<string>, outputPackage: Option<string>, classToExtend: string,
                    disclaimer: string, separator: string)
    requires AllPresent(ts)
    ensures var r := Compose(ts, classPackage, className, name, outputPackage, classToExtend, disclaimer, separator);
      var interfaces := AddAll([], Flatten(InterfaceLists(ts)));
      var head := disclaimer + "package " + Show(outputPackage) + ";\n" + "\n"
                  + Concat(MapSeq(ImportList(classPackage, className, ts), ImportLine([]))) + "\n";
      var decl := head + "public class " + Show(name) + " extends " + classToExtend;
      var header := if interfaces == [] then decl else decl + " implements " + Join(interfaces, ", ");
      && (r.Ok? <==> outputPackage.Some?)
      && (outputPackage.None? ==> r == Err(NullPointer))
      && (outputPackage.Some? ==>
            && r.value.text == header + "\n{\n" + Concat(MapSeq(ts, FieldBlockOf)) + Concat(MapSeq(ts, MethodBlockOf)) + "}"
            && r.value.path == Replace(outputPackage.value, ".", separator) + separator + Show(name) + ".java")
  {
    var top := disclaimer + "package " + Show(outputPackage) + ";\n" + "\n";
    ImportLinesText(top, ImportList(classPackage, className, ts), []);
    var head := Head(ts, classPackage, className, outputPackage, disclaimer);
    var interfaces := AddAll([], Flatten(InterfaceLists(ts)));
    ClassHeaderText(head, name, classToExtend, interfaces);
    var header := ClassHeader(head, name, classToExtend, interfaces);
    FieldBlocksText(header + "\n{\n", ts);
    MethodBlocksText(FieldBlocks(header + "\n{\n", ts), ts);
  }

  /**
   * A plain output name is placed in the target's own package; for a target
   * without a package line that package is null, and build throws
   * NullPointerException when it turns the package into a path.
   */
  lemma PlainNameWithoutPackageThrows(ts: seq<Option<TemplateState>>, className: string, name: string,
                                      outputPackage: Option<string>, classToExtend: string,
                                      disclaimer: string, separator: string)
    requires !Contains(name, ".")
    ensures var (n, pkg) := ResolveName(name, outputPackage, None);
      Compose(ts, None, className, Some(n), pkg, classToExtend, disclaimer, separator) == Err(NullPointer)
  {
  }

  // ---------------------------------------------------------------------------
  // What the imports and interfaces lists hold
  // ---------------------------------------------------------------------------

  /** Every import a non-null template lists is in the import list. */
  lemma ImportListComplete(classPackage: Option<string>, className: string, ts: seq<Option<TemplateState>>, i: nat, x: string)
    requires i < |ts| && ts[i].Some? && x in ts[i].value.imports
    ensures x in ImportList(classPackage, className, ts)
  {
    FlattenMember(ImportLists(ts), i, x);
    AddAllProps([WrappedImport(classPackage, className)], Flatten(ImportLists(ts)));
  }

  /** Each import in the list is the wrapped class or an import of some template. */
  lemma ImportListSound(classPackage: Option<string>, className: string, ts: seq<Option<TemplateState>>, k: nat)
    requires k < |ImportList(classPackage, className, ts)|
    ensures var x := ImportList(classPackage, className, ts)[k];
      x == WrappedImport(classPackage, className) || exists i :: 0 <= i < |ts| && ts[i].Some? && x in ts[i].value.imports
  {
    var x := ImportList(classPackage, className, ts)[k];
    if x != WrappedImport(classPackage, className) {
      FlattenFrom(ImportLists(ts), x);
    }
  }

  /** The imports keep the order in which each is first seen: the wrapped class, then template by template. */
  lemma ImportListFirstSeen(classPackage: Option<string>, className: string, ts: seq<Option<TemplateState>>)
    ensures FirstSeenOrder(ImportList(classPackage, className, ts), [WrappedImport(classPackage, className)] + Flatten(ImportLists(ts)))
  {
    AddAllFirstSeen([WrappedImport(classPackage, className)], Flatten(ImportLists(ts)));
  }

  /** Every interface of every template is implemented, and only those are. */
  lemma InterfaceListExact(ts: seq<Option<TemplateState>>, x: string)
    requires AllPresent(ts)
    ensures x in InterfaceList(ts).value <==> exists i :: 0 <= i < |ts| && x in ts[i].value.interfaces
  {
    AddAllProps([], Flatten(InterfaceLists(ts)));
    if x in InterfaceList(ts).value {
      FlattenFrom(InterfaceLists(ts), x);
    }
    if exists i :: 0 <= i < |ts| && x in ts[i].value.interfaces {
      var i :| 0 <= i < |ts| && x in ts[i].value.interfaces;
      FlattenMember(InterfaceLists(ts), i, x);
    }
  }

  /** The interfaces keep the order in which each is first seen, template by template. */
  lemma InterfaceListFirstSeen(ts: seq<Option<TemplateState>>)
    requires AllPresent(ts)
    ensures FirstSeenOrder(InterfaceList(ts).value, Flatten(InterfaceLists(ts)))
  {
    AddAllFirstSeen([], Flatten(InterfaceLists(ts)));
    assert [] + Flatten(InterfaceLists(ts)) == Flatten(InterfaceLists(ts));
  }


  // ---------------------------------------------------------------------------
  // What the registry holds
  // ---------------------------------------------------------------------------

  /** The file's load registers a template under `k`: it was a template, valid, with that key. */
  predicate Registers(outcome: Result<(bool, TemplateState)>, k: string) {
    outcome.Ok? && outcome.value.0 && outcome.value.1.valid && outcome.value.1.key == Some(k)
  }

  /** The run completes exactly when no file throws. */
  lemma {:induction false} RegisteredOk(load: FileLoad, files: seq<seq<string>>)
    ensures Registered(load, files).Ok? <==> forall j :: 0 <= j < |files| ==> load(files[j]).Ok?
  {
    if files != [] {
      var init := files[..|files| - 1];
      RegisteredOk(load, init);
      if forall j :: 0 <= j < |files| ==> load(files[j]).Ok? {
        forall j | 0 <= j < |init|
          ensures load(init[j]).Ok?
        {
          assert init[j] == files[j];
        }
      } else if Registered(load, init).Ok? {
        var j :| 0 <= j < |files| && load(files[j]).Err?;
        if j < |init| {
          assert init[j] == files[j];
        }
      }
    }
  }

  /** A run that throws reports the exception of the first file that throws. */
  lemma RegisteredErrFirst(load: FileLoad, files: seq<seq<string>>, j: nat)
    requires j < |files| && load(files[j]).Err?
    requires forall i :: 0 <= i < j ==> load(files[i]).Ok?
    ensures Registered(load, files) == Err(load(files[j]).error)
  {
    var before := files[..j];
    forall i | 0 <= i < |before|
      ensures load(before[i]).Ok?
    {
      assert before[i] == files[i];
    }
    RegisteredOk(load, before);
    assert files[..j + 1][..j] == before;
    RegisteredErrPersists(load, files, j + 1);
  }

  /**
   * A template registered under `k` by a file that no later file overrides
   * is the one the registry holds under `k`: the last put wins.
   */
  lemma {:induction false} RegisteredLastWins(load: FileLoad, files: seq<seq<string>>, j: nat, k: string)
    requires Registered(load, files).Ok?
    requires j < |files| && Registers(load(files[j]), k)
    requires forall i :: j < i < |files| ==> !Registers(load(files[i]), k)
    ensures var reg := ToMap(Registered(load, files).value);
      k in reg && reg[k] == load(files[j]).value.1
  {
    var n := |files| - 1;
    var init := files[..n];
    RegisteredLast(load, files);
    var ps0, ps := Registered(load, init).value, Registered(load, files).value;
    var last := load(files[n]).value;
    ToMapAdded(ps0, last.0, last.1);
    if j < n {
      LaterFilesOfInit(load, files, j, k);
      RegisteredLastWins(load, init, j, k);
      assert !Registers(load(files[n]), k);
      assert ToMap(ps)[k] == ToMap(ps0)[k];
    } else {
      assert ToMap(ps) == ToMap(ps0)[k := last.1];
    }
  }

  /** Dropping the last file keeps the hypotheses of RegisteredLastWins. */
  lemma LaterFilesOfInit(load: FileLoad, files: seq<seq<string>>, j: nat, k: string)
    requires j < |files| - 1
    requires forall i :: j < i < |files| ==> !Registers(load(files[i]), k)
    ensures var init := files[..|files| - 1];
      && init[j] == files[j]
      && forall i :: j < i < |init| ==> !Registers(load(init[i]), k)
  {
    var init := files[..|files| - 1];
    forall i | j < i < |init|
      ensures !Registers(load(init[i]), k)
    {
      assert init[i] == files[i];
    }
  }

  /** The registration of a non-empty run: that of all files but the last, plus the last one's. */
  lemma RegisteredLast(load: FileLoad, files: seq<seq<string>>)
    requires files != [] && Registered(load, files).Ok?
    ensures var n := |files| - 1;
      && Registered(load, files[..n]).Ok? && load(files[n]).Ok?
      && Registered(load, files).value == Registered(load, files[..n]).value + Added(load(files[n]).value.0, load(files[n]).value.1)
  {
  }

  /** The map of the pairs with one more file's pair added. */
  lemma ToMapAdded(ps: seq<(string, TemplateState)>, found: bool, st: TemplateState)
    ensures ToMap(ps + Added(found, st)) ==
      if found && st.valid && st.key.Some? then ToMap(ps)[st.key.value := st] else ToMap(ps)
  {
    if found && st.valid && st.key.Some? {
      ToMapSnoc(ps, (st.key.value, st));
    } else {
      assert ps + [] == ps;
    }
  }

  /** Every template in the registry was registered by some file, under its own key. */
  lemma {:induction false} RegisteredFrom(load: FileLoad, files: seq<seq<string>>, k: string)
    requires Registered(load, files).Ok?
    requires k in ToMap(Registered(load, files).value)
    ensures exists j :: && 0 <= j < |files| && Registers(load(files[j]), k)
                        && ToMap(Registered(load, files).value)[k] == load(files[j]).value.1
  {
    var n := |files| - 1;
    var init := files[..n];
    RegisteredLast(load, files);
    var ps0 := Registered(load, init).value;
    var (found, st) := load(files[n]).value;
    ToMapAdded(ps0, found, st);
    if found && st.valid && st.key == Some(k) {
      assert Registers(load(files[n]), k);
    } else {
      RegisteredFrom(load, init, k);
      var j :| 0 <= j < |init| && Registers(load(init[j]), k)
        && ToMap(ps0)[k] == load(init[j]).value.1;
      assert init[j] == files[j];
    }
  }
}
