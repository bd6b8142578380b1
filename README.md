# VoltzEngine code generator — a Dafny model

The VoltzEngine CodeGenerator writes Java "wrapper" classes. Each target class
carries tags (annotations) that name processors. Each processor holds a set
of templates: Java files whose class extends `TileEntityWrapper`. The
processor composes one new class from its templates' imports, interfaces,
fields and methods.

This project models that core:

- `Templates` covers `Template.loadFile`. It reads a template file in four
  regions: imports, tags, class header and body. It finds the template key,
  the supertype, the interfaces and the field and method sections, and it
  decides whether the template is valid. The functions (`Load` and its parts)
  say what each region yields. The class `Template` runs the same scan with
  the source's loops, and its `LoadFile` is proved equal to `Load`.
- `Processors` covers the processor. It models `build` and its helpers
  `createImports`, `collectImports`, `collectIgnoredImports`,
  `createClassHeader`, `createConstructor` and `createBody`. It also models
  the registry that `loadTemplates` fills. Each part of the generated text is
  a function of the text built so far. The methods build the same text with
  the source's loops.
- `Data` covers `BuildData`, the record handed to a processor.
- `Launcher` covers two parts of `Main`:
  - `loadArgs`, the parser of the launch arguments (`-key=value`, or `-key`
    followed by value tokens);
  - `handleFile`, which scans one target file for its package and tags and
    hands a `BuildData` to every processor whose key is among them.
- `JavaString`, `LazyRegex` and `Collections` give the Java library
  behaviour that the core relies on:
  - `trim`, a `substring` that throws, `split` without trailing empty
    strings, `replace`;
  - the lazy patterns `open(.*?)close` that `find` matches;
  - `ArrayList.contains`/`add` deduplication and `HashMap.put`.

Java `null` is `Option`. A thrown exception is an `Err` result. Concatenating
a null string gives `"null"` (`JavaString.Show`).

## Model

All source paths are under `src/main/java/com/builtbroken/mc/codegen/`.

| member | source | states |
|---|---|---|
| Templates.Template.constructor | src/main/java/com/builtbroken/mc/codegen/template/Template.java:44-47 | a new template keeps its annotation key and starts with empty lists, null strings, no key, and valid |
| Templates.Template.LoadFile | src/main/java/com/builtbroken/mc/codegen/template/Template.java:55-266 | returns the template (Ok(true)) or null (Ok(false)), or throws, exactly as Load says; on success the template's fields are Load's new state |
| Templates.Template.ReadPreamble | src/main/java/com/builtbroken/mc/codegen/template/Template.java:66-117 | the imports and the scanned tags are added as Preamble says; the tag region is returned |
| Templates.Template.ReadClass | src/main/java/com/builtbroken/mc/codegen/template/Template.java:137-258 | the header, the supertype check and the body give ClassPart's outcome and state, or its exception |
| Templates.Template.ReadBody | src/main/java/com/builtbroken/mc/codegen/template/Template.java:219-258 | interfaces are appended, and each section is set when found and kept otherwise (Body) |
| Templates.Load | src/main/java/com/builtbroken/mc/codegen/template/Template.java:55-266 | whatever the outcome, the imports before the first `@` line and the scanned tags are added; null is returned exactly when no key is known, and nothing past the tags changes then; a missing or wrong supertype invalidates the template before interfaces and sections are read; a template left valid has a key and extends TileEntityWrapper |
| Templates.FirstLine | src/main/java/com/builtbroken/mc/codegen/template/Template.java:67-78 | the first line at or after `from` that stops a read loop, or the end: no earlier line stops it |
| Templates.ReadImportRegion | src/main/java/com/builtbroken/mc/codegen/template/Template.java:67-78 | stops at the first line whose trimmed text starts with `@`; the text is every trimmed line before it |
| Templates.MatchImports | src/main/java/com/builtbroken/mc/codegen/template/Template.java:81-89 | the imports are the trimmed groups of every `import…;` find, in order (ImportsIn) |
| Templates.ImportsInChunk | src/main/java/com/builtbroken/mc/codegen/template/Template.java:81-89 | an `import X;` chunk yields trim(X) and then the imports that follow it, so source order and duplicates are kept |
| Templates.ImportsInNone | src/main/java/com/builtbroken/mc/codegen/template/Template.java:81-89 | text without `import` yields no imports |
| Templates.ImportsIgnoreLaterLines | src/main/java/com/builtbroken/mc/codegen/template/Template.java:67-89 | the imports depend only on the lines before the first `@` line |
| Templates.TagRegion | src/main/java/com/builtbroken/mc/codegen/template/Template.java:92-113 | the tag region stops at the first `class` line; that line is cut at its first `class`: the text before it joins the tags, and the rest, starting with `class`, is left over; nothing is left exactly when no line has `class`, and the tag text is then every trimmed line to the end |
| Templates.ReadTagRegion | src/main/java/com/builtbroken/mc/codegen/template/Template.java:92-113 | the loop gives TagRegion's region |
| Templates.TagValue | src/main/java/com/builtbroken/mc/codegen/template/Template.java:125-126 | a key that can be read is trimmed and has no double quote |
| Templates.TagValueOf | src/main/java/com/builtbroken/mc/codegen/template/Template.java:125-126 | the key of `n(k=v…)` is v with its double quotes removed, trimmed |
| Templates.TagValueMissing | src/main/java/com/builtbroken/mc/codegen/template/Template.java:125-126 | `n(k)` and `n(k=)` have no second `=` piece, so reading the key throws ArrayIndexOutOfBoundsException |
| Templates.LastKeyTag | src/main/java/com/builtbroken/mc/codegen/template/Template.java:120-128 | the index of the last tag starting with the annotation key, or -1 when there is none |
| Templates.ScanKey | src/main/java/com/builtbroken/mc/codegen/template/Template.java:120-128 | the tag loop gives KeyScan's key or KeyScan's exception |
| Templates.KeyScanThrows | src/main/java/com/builtbroken/mc/codegen/template/Template.java:123-127 | the key scan throws exactly when some tag that starts with the annotation key has a value that cannot be read |
| Templates.KeyFromLastTag | src/main/java/com/builtbroken/mc/codegen/template/Template.java:120-128 | the key is the value of the last tag that starts with the annotation key, or the earlier key when no tag does |
| Templates.LoadKey | src/main/java/com/builtbroken/mc/codegen/template/Template.java:117-135 | after loadFile the key is read from the last key tag among the old tags and the new ones, or kept when there is none |
| Templates.HeaderCommentThrows | src/main/java/com/builtbroken/mc/codegen/template/Template.java:147-151 | a header line that holds `//` throws StringIndexOutOfBoundsException, because the warning takes a substring from -1; any other line is kept as it is |
| Templates.CommentedHeaderLineStops | src/main/java/com/builtbroken/mc/codegen/template/Template.java:144-151 | a line with a trailing `//` comment ends the header region |
| Templates.LoadThrowsOnHeaderComment | src/main/java/com/builtbroken/mc/codegen/template/Template.java:137-167 | once a key is known, the first header line with a trailing `//` comment makes loadFile throw StringIndexOutOfBoundsException |
| Templates.Header | src/main/java/com/builtbroken/mc/codegen/template/Template.java:138-167 | the header region stops at the first line that throws or holds `{`; a line is left over exactly when such a line exists |
| Templates.ReadHeader | src/main/java/com/builtbroken/mc/codegen/template/Template.java:138-167 | the loop gives Header's region or Header's exception |
| Templates.HeaderAt | src/main/java/com/builtbroken/mc/codegen/template/Template.java:153-161 | at a known stop line the header text takes the whole line, and what follows its first `{` is left for the body (the whole line when it starts with `{`); a stop line that throws makes the header throw |
| Templates.StripHeaderComments | src/main/java/com/builtbroken/mc/codegen/template/Template.java:171-180 | every `/*…*/` find is removed from the header in turn (StripComments) |
| Templates.StripCommentsNone | src/main/java/com/builtbroken/mc/codegen/template/Template.java:171-180 | a header without `/*` is kept as it is |
| Templates.StripOneComment | src/main/java/com/builtbroken/mc/codegen/template/Template.java:171-180 | a header with one block comment loses exactly that comment: what comes before and after it is kept |
| Templates.StripAllComments | src/main/java/com/builtbroken/mc/codegen/template/Template.java:171-180 | a header of gaps and block comments, none holding `/` or `*`, loses every comment and keeps every gap, in order |
| Templates.FindAllCommented | src/main/java/com/builtbroken/mc/codegen/template/Template.java:171-172 | the comment pattern finds exactly the header's comments, in order |
| Templates.ReplaceCommented | src/main/java/com/builtbroken/mc/codegen/template/Template.java:175-176 | replacing one found comment throughout the header deletes every comment with that text, and nothing else |
| Templates.WithoutCommentKeeps | src/main/java/com/builtbroken/mc/codegen/template/Template.java:173-179 | deleting a comment keeps the text outside comments and leaves only the other comments |
| Templates.Supertype | src/main/java/com/builtbroken/mc/codegen/template/Template.java:184-198 | the supertype stays null only when it was null before and neither extends pattern matches |
| Templates.SupertypeImplements | src/main/java/com/builtbroken/mc/codegen/template/Template.java:184-189 | when the first `extends` is followed by an `implements`, the supertype is the text between them, trimmed, whatever was held before |
| Templates.SupertypeKept | src/main/java/com/builtbroken/mc/codegen/template/Template.java:184-198 | with no `implements` in the header, a supertype held before is kept |
| Templates.SupertypeBrace | src/main/java/com/builtbroken/mc/codegen/template/Template.java:190-198 | with no `implements` and none held before, the supertype is the text between the first `extends` and the `{` after it, trimmed |
| Templates.MatchInterfaces | src/main/java/com/builtbroken/mc/codegen/template/Template.java:221-230 | the interfaces are every `implements…{` group, split on `,`, each trimmed, in order |
| Templates.AddTrimmed | src/main/java/com/builtbroken/mc/codegen/template/Template.java:225-229 | appends every piece, trimmed, in order |
| Templates.InterfaceNamesClean | src/main/java/com/builtbroken/mc/codegen/template/Template.java:224-227 | every interface name is trimmed and has no comma |
| Templates.ClassPart | src/main/java/com/builtbroken/mc/codegen/template/Template.java:137-258 | once past the key, loadFile returns the template; imports, tags and key stay as they were; a template that does not extend TileEntityWrapper is invalid and its interfaces and sections stay as they were |
| Templates.ReadRemainder | src/main/java/com/builtbroken/mc/codegen/template/Template.java:237-244 | the rest of the file is the line left over, then every further line followed by a newline |
| Templates.SectionAbsent | src/main/java/com/builtbroken/mc/codegen/template/Template.java:247-258 | a section whose start marker is absent keeps its earlier value |
| Templates.SectionFound | src/main/java/com/builtbroken/mc/codegen/template/Template.java:247-258 | a section is the text between the first start marker and the first end marker after it, newlines included |
| Templates.Trims | src/main/java/com/builtbroken/mc/codegen/template/Template.java:87 | each element trimmed, in place and in order |
| Templates.Next | src/main/java/com/builtbroken/mc/codegen/template/Template.java:94 | a read loop that stopped at a line goes on from the line after it |
| Data.BuildData.constructor | src/main/java/com/builtbroken/mc/codegen/data/BuildData.java:25-31 | the tags, class name and package are set as given, the output class name is null and the output package is the class package |
| Processors.Processor.constructor | src/main/java/com/builtbroken/mc/codegen/processor/Processor.java:32-37 | the three keys are set as given and the registry starts empty |
| Processors.LastDotSplit | src/main/java/com/builtbroken/mc/codegen/processor/Processor.java:103-111 | a name with a `.` splits at its last `.` into a package part and a class part that has no `.` |
| Processors.ResolveName | src/main/java/com/builtbroken/mc/codegen/processor/Processor.java:103-116 | a dotted name joins back as package + `.` + class, and its class part has no `.`; a leading `.` makes the path relative to the earlier output package; a plain name goes in the target's own package |
| Processors.Processor.ResolveOutputName | src/main/java/com/builtbroken/mc/codegen/processor/Processor.java:103-116 | the output name and package in the BuildData become ResolveName's result |
| Processors.Processor.Build | src/main/java/com/builtbroken/mc/codegen/processor/Processor.java:82-146 | a null output name throws NullPointerException and changes nothing; otherwise the name is resolved, and the text and its path are Compose's result for the resolved name and package, which throws NullPointerException when that package is null |
| Processors.Processor.Write | src/main/java/com/builtbroken/mc/codegen/processor/Processor.java:119-146 | after the disclaimer, the file text and path are Compose's result for the templates as they stand; a null output package throws NullPointerException when the path is built |
| Processors.Compose | src/main/java/com/builtbroken/mc/codegen/processor/Processor.java:119-146 | composing throws NullPointerException exactly when a template is null or the output package is null |
| Processors.ComposeText | src/main/java/com/builtbroken/mc/codegen/processor/Processor.java:82-146 | with a non-null output package, the file is: disclaimer, package line, one import line per import, class declaration with the distinct interfaces, `{`, every field block, every method block, `}`; its path is the package with `.` replaced by the separator, then the class name and `.java`; with a null output package building the path throws NullPointerException |
| Processors.PlainNameWithoutPackageThrows | src/main/java/com/builtbroken/mc/codegen/processor/Processor.java:113-146 | a plain output name for a target without a package line leaves the output package null, and building the file then throws NullPointerException |
| Processors.ImportList | src/main/java/com/builtbroken/mc/codegen/processor/Processor.java:176-225 | the imports start with the wrapped class, have no duplicates, and hold only that class and the imports of the templates |
| Processors.ImportLists | src/main/java/com/builtbroken/mc/codegen/processor/Processor.java:210-216 | each template's imports, with a null template contributing none |
| Processors.Processor.CreateImports | src/main/java/com/builtbroken/mc/codegen/processor/Processor.java:176-200 | appends one `import X;` line for each entry of ImportList, in order (nothing is ignored) |
| Processors.Processor.WriteImports | src/main/java/com/builtbroken/mc/codegen/processor/Processor.java:191-199 | writes an import line for each import that is not ignored, in order |
| Processors.Processor.CollectImports | src/main/java/com/builtbroken/mc/codegen/processor/Processor.java:208-225 | adds each import of each non-null template when it is absent, in order (AddAll) |
| Processors.Processor.CollectIgnoredImports | src/main/java/com/builtbroken/mc/codegen/processor/Processor.java:233-236 | adds nothing |
| Processors.Processor.AddAbsent | src/main/java/com/builtbroken/mc/codegen/processor/Processor.java:215-222 | adds each item when it is not already in the list (AddAll) |
| Processors.ImportListComplete | src/main/java/com/builtbroken/mc/codegen/processor/Processor.java:208-225 | every import of every non-null template is in the import list |
| Processors.ImportListSound | src/main/java/com/builtbroken/mc/codegen/processor/Processor.java:176-225 | every entry of the import list is the wrapped class or an import of some non-null template |
| Processors.ImportListFirstSeen | src/main/java/com/builtbroken/mc/codegen/processor/Processor.java:176-225 | the import list keeps the order in which each import is first seen |
| Processors.ImportLinesText | src/main/java/com/builtbroken/mc/codegen/processor/Processor.java:191-199 | the import section is the concatenation of one line per import, in order, and an ignored import gives no text |
| Processors.InterfaceList | src/main/java/com/builtbroken/mc/codegen/processor/Processor.java:251-264 | throws NullPointerException exactly when a template is null; otherwise it has no duplicates and holds only the templates' interfaces |
| Processors.InterfaceLists | src/main/java/com/builtbroken/mc/codegen/processor/Processor.java:253-256 | each template's interfaces |
| Processors.InterfaceListExact | src/main/java/com/builtbroken/mc/codegen/processor/Processor.java:251-264 | a name is in the interface list exactly when some template lists it |
| Processors.InterfaceListFirstSeen | src/main/java/com/builtbroken/mc/codegen/processor/Processor.java:251-264 | the interface list keeps the order in which each interface is first seen |
| Processors.Processor.CreateClassHeader | src/main/java/com/builtbroken/mc/codegen/processor/Processor.java:244-277 | throws NullPointerException exactly when a template is null; otherwise appends ClassHeader for the output name, the supertype and InterfaceList |
| Processors.Processor.CollectInterfaces | src/main/java/com/builtbroken/mc/codegen/processor/Processor.java:251-264 | the loop gives InterfaceList's list, or its exception |
| Processors.Processor.WriteInterfaces | src/main/java/com/builtbroken/mc/codegen/processor/Processor.java:268-275 | the names are written separated by `, ` (Listed) |
| Processors.ListedJoin | src/main/java/com/builtbroken/mc/codegen/processor/Processor.java:268-275 | the names are written joined by `, `, with no separator after the last one |
| Processors.ListedPrefix | src/main/java/com/builtbroken/mc/codegen/processor/Processor.java:268-275 | after n names comes a `, ` exactly when more names follow |
| Processors.ClassHeaderText | src/main/java/com/builtbroken/mc/codegen/processor/Processor.java:244-277 | a header is `public class N extends S`, followed by ` implements ` and the interfaces joined by `, ` only when there is at least one |
| Processors.Processor.CreateConstructor | src/main/java/com/builtbroken/mc/codegen/processor/Processor.java:285-288 | appends nothing |
| Processors.Processor.CreateBody | src/main/java/com/builtbroken/mc/codegen/processor/Processor.java:296-332 | appends every template's field block, then every template's method block (ClassBody) |
| Processors.Processor.WriteFieldBlock | src/main/java/com/builtbroken/mc/codegen/processor/Processor.java:300-316 | one template's field block (FieldBlock) |
| Processors.Processor.WriteMethodBlock | src/main/java/com/builtbroken/mc/codegen/processor/Processor.java:321-330 | one template's method block (MethodBlock) |
| Processors.Processor.AddFieldLines | src/main/java/com/builtbroken/mc/codegen/processor/Processor.java:306-315 | the field loop writes FieldLines |
| Processors.FieldLinesText | src/main/java/com/builtbroken/mc/codegen/processor/Processor.java:306-315 | the field lines are one line per non-empty piece of the split on `;`: a tab, the piece trimmed, then `;` |
| Processors.FieldLineBlank | src/main/java/com/builtbroken/mc/codegen/processor/Processor.java:309-313 | a piece made only of whitespace is not skipped and gives the line `\t;` |
| Processors.FieldBlockAppends | src/main/java/com/builtbroken/mc/codegen/processor/Processor.java:300-316 | a template's field block appends its own text and leaves what came before it unchanged |
| Processors.FieldBlocksText | src/main/java/com/builtbroken/mc/codegen/processor/Processor.java:298-317 | the field section is the field blocks of the templates, concatenated in order |
| Processors.MethodBlocksText | src/main/java/com/builtbroken/mc/codegen/processor/Processor.java:319-331 | the method section is the method blocks of the templates, concatenated in order |
| Processors.Snapshot | src/main/java/com/builtbroken/mc/codegen/processor/Processor.java:210-213 | each template as the processor reads it, with null for a null template |
| Processors.Processor.LoadTemplates | src/main/java/com/builtbroken/mc/codegen/processor/Processor.java:341-386 | registration completes exactly when Registered does and fails with its exception; afterwards the registry is the old registry overridden by the templates registered, key by key |
| Processors.Processor.LoadAndRegister | src/main/java/com/builtbroken/mc/codegen/processor/Processor.java:365-382 | one file is loaded into a new template and registered, and the registry keeps mirroring Registered over the files so far |
| Processors.Processor.Register | src/main/java/com/builtbroken/mc/codegen/processor/Processor.java:371-381 | a template that loaded, is valid and has a key is put under that key; one that loaded as null or invalid is skipped; an exception ends the run |
| Processors.Processor.LoadOne | src/main/java/com/builtbroken/mc/codegen/processor/Processor.java:365-369 | a new Template, made with the template key, whose loadFile outcome and state are those of Load from a new state |
| Processors.RegisteredErrPersists | src/main/java/com/builtbroken/mc/codegen/processor/Processor.java:379-382 | once a file throws, later files do not change the outcome |
| Processors.RegisteredOk | src/main/java/com/builtbroken/mc/codegen/processor/Processor.java:354-385 | the run completes exactly when no file's load throws |
| Processors.RegisteredErrFirst | src/main/java/com/builtbroken/mc/codegen/processor/Processor.java:366-382 | the run fails with the exception of the first file that throws |
| Processors.RegisteredLastWins | src/main/java/com/builtbroken/mc/codegen/processor/Processor.java:371-376 | a key holds the template of the last file that registers it |
| Processors.RegisteredFrom | src/main/java/com/builtbroken/mc/codegen/processor/Processor.java:371-376 | every key in the registry comes from a file that loaded a valid template with that key |
| Processors.MirrorsToMap | src/main/java/com/builtbroken/mc/codegen/processor/Processor.java:375 | the registry of Template objects has the same keys as the registry of states, and each entry's state matches |
| Collections.AddAllProps | src/main/java/com/builtbroken/mc/codegen/processor/Processor.java:215-222 | the contains-then-add loop only appends, introduces no duplicate, keeps only its inputs, and keeps every item |
| Collections.AddAllFirstSeen | src/main/java/com/builtbroken/mc/codegen/processor/Processor.java:215-222 | the contains-then-add loop keeps first-seen order |
| Collections.AddAllAppend | src/main/java/com/builtbroken/mc/codegen/processor/Processor.java:210-224 | adding two lists in turn is the same as adding their concatenation |
| Collections.ToMapKeys | src/main/java/com/builtbroken/mc/codegen/processor/Processor.java:375 | the map's keys are exactly the keys put |
| Collections.ToMapLastWins | src/main/java/com/builtbroken/mc/codegen/processor/Processor.java:375 | each key holds the value of the last put for it |
| Launcher.Unquoted | src/main/java/com/builtbroken/mc/codegen/Main.java:346 | a value with its quotes removed has no `"` or `'` in it, is trimmed, and has only chars of the token |
| Launcher.UnquotedPlain | src/main/java/com/builtbroken/mc/codegen/Main.java:346 | a trimmed token without quotes is taken as it is |
| Launcher.ParseArgs | src/main/java/com/builtbroken/mc/codegen/Main.java:307-360 | no arguments (null or empty) give an empty map |
| Launcher.LoadArgs | src/main/java/com/builtbroken/mc/codegen/Main.java:307-360 | the loop's result, or its exception, is ParseArgs of the arguments |
| Launcher.RunErrPersists | src/main/java/com/builtbroken/mc/codegen/Main.java:314-352 | once a token throws, later tokens do not change the outcome |
| Launcher.DashTokenKeyValue | src/main/java/com/builtbroken/mc/codegen/Main.java:329-334 | `-k=v` gives key trim(k) and value trim(v) |
| Launcher.DashTokenNoValue | src/main/java/com/builtbroken/mc/codegen/Main.java:329-334 | `-k=` with nothing after `=` throws ArrayIndexOutOfBoundsException |
| Launcher.DashTokenKeyOnly | src/main/java/com/builtbroken/mc/codegen/Main.java:335-338 | `-k` gives key trim(k) and no value of its own |
| Launcher.RunKeySet | src/main/java/com/builtbroken/mc/codegen/Main.java:321-351 | after the first token, a key is always being read |
| Launcher.ValueFirstThrows | src/main/java/com/builtbroken/mc/codegen/Main.java:348-351 | a value token before any `-` token throws IllegalArgumentException |
| Launcher.NullThrows | src/main/java/com/builtbroken/mc/codegen/Main.java:316-320 | a null token throws NullPointerException at `trim` unless an earlier token threw |
| Launcher.DashCommits | src/main/java/com/builtbroken/mc/codegen/Main.java:321-339 | a `-` token puts its key into the result with its own value, or "" when it has none, over the settings so far, so a repeated key keeps its last value |
| Launcher.StepDash | src/main/java/com/builtbroken/mc/codegen/Main.java:321-339 | a `-` token commits the key being read and starts its own key with its value, or "" |
| Launcher.ValueJoins | src/main/java/com/builtbroken/mc/codegen/Main.java:340-347 | a value token adds its unquoted text to the current value, after a `,` when that value is not empty, and leaves the other settings unchanged |
| Launcher.StepValue | src/main/java/com/builtbroken/mc/codegen/Main.java:340-347 | a value token extends the value of the key being read |
| Launcher.StepThrows | src/main/java/com/builtbroken/mc/codegen/Main.java:316-351 | the tokens that throw: a null one, a `-` token that cannot be split, and a value with no key |
| Launcher.RunSnoc | src/main/java/com/builtbroken/mc/codegen/Main.java:314-352 | one more token is one more pass of the loop |
| Launcher.PackageOfRoundTrip | src/main/java/com/builtbroken/mc/codegen/Main.java:248-254 | the line `package` + g + `;` gives the package trim(g) |
| Launcher.PackageOfNone | src/main/java/com/builtbroken/mc/codegen/Main.java:248-254 | a line that does not start with `package` or end with `;` gives no package |
| Launcher.HeaderIgnoresRest | src/main/java/com/builtbroken/mc/codegen/Main.java:243-266 | the header scan stops at the first `{` line that is not an import, package or tag line, and never reads the lines after it |
| Launcher.ScanLinesTags | src/main/java/com/builtbroken/mc/codegen/Main.java:256-259 | the tags are those of every scanned tag line, appended in order, duplicates kept |
| Launcher.ScanLinesPackage | src/main/java/com/builtbroken/mc/codegen/Main.java:248-255 | the package is null exactly when no line is a package line, and otherwise comes from the last package line |
| Launcher.ReadHeader | src/main/java/com/builtbroken/mc/codegen/Main.java:243-266 | the read loop gives ScanHeader's package and tags |
| Launcher.SplitTag | src/main/java/com/builtbroken/mc/codegen/Main.java:283-285 | a tag that cannot be split throws StringIndexOutOfBoundsException |
| Launcher.SplitTagRoundTrip | src/main/java/com/builtbroken/mc/codegen/Main.java:283-285 | `name(data)`, closed by any char, splits back into name and data when the name has no `(` |
| Launcher.SplitTagThrows | src/main/java/com/builtbroken/mc/codegen/Main.java:283-285 | a tag throws exactly when no `(` comes before its last char |
| Launcher.TagMapOk | src/main/java/com/builtbroken/mc/codegen/Main.java:279-287 | the tag map is built exactly when every tag splits |
| Launcher.TagMapPuts | src/main/java/com/builtbroken/mc/codegen/Main.java:279-287 | the tag map is the HashMap of each tag's name and data put in order, so a repeated name keeps its last data |
| Launcher.TagMapErrPersists | src/main/java/com/builtbroken/mc/codegen/Main.java:279-287 | once a tag throws, later tags do not change the outcome |
| Launcher.ReadTags | src/main/java/com/builtbroken/mc/codegen/Main.java:279-287 | the tag loop gives TagMap's map or its exception |
| Launcher.ScanFile | src/main/java/com/builtbroken/mc/codegen/Main.java:230-287 | a file is skipped exactly when its name does not end in `.java`; the class name is the file name without `.java` |
| Launcher.SelectedExact | src/main/java/com/builtbroken/mc/codegen/Main.java:289-295 | a processor is selected exactly when it is listed and its key is one of the file's tags |
| Launcher.HandOver | src/main/java/com/builtbroken/mc/codegen/Main.java:289-295 | each selected processor, in list order, gets a new BuildData with the file's tags, package and class name |
| Launcher.HandleFile | src/main/java/com/builtbroken/mc/codegen/Main.java:230-298 | succeeds or throws as ScanFile does; a non-`.java` file hands over nothing; otherwise every selected processor, in order, gets a new BuildData of its own |

## Left out

- File and directory I/O is not modelled. A file is its sequence of lines and a directory is a sequence of files. This covers the recursion of `loadTemplates` and `handleDirectory`, and the writing of the generated file: `Build` returns its text and path.
- Logging (`Main.out`, `Main.warn`) has no effect on the model and is left out. `Main.error` ends the program with `System.exit`. So every exception is an `Err` that ends the run, and the state left behind by a failed step is not described.
- `Parser.getAnnotations` is not part of this model. It is the parameter `scan`, and every property holds for every scanner.
- `System.getProperty("user.name")` is the parameter `userName`. `File.separator` is the parameter `separator`.
- `Main.main`, the processor lookup by reflection, `Processor.initialized` and `Processor.finalize` are left out. They are setup and I/O around the core.
- `Processor.handleFile` is abstract. `HandleFile` therefore returns, for each selected processor, the `BuildData` it would be handed.
- `Main.java:293` passes five arguments to `Processor.handleFile`, and no such overload exists. The model passes the `BuildData` built from the file's tags, package and class name.
- `Processor.java:365` calls a two-argument `Template` constructor that does not exist. The model uses the one-argument constructor of `Template.java:44`. The supertype a template must extend is then the hard-coded `TileEntityWrapper` of `Template.java:204`.
- `Main.java:317-320` tests the trimmed token for null, but `trim` has already thrown on a null token. The model throws NullPointerException there, so the IllegalArgumentException of that test never happens.
- The `methods` and `fields` maps at `Template.java:33-34` are commented out and are not part of the class. The getters of `Template` (`Template.java:268-286`) are left out, because the model reads the fields directly.
- Strings are sequences of Unicode characters, while a Java `String` is a sequence of UTF-16 code units. The two differ only for characters outside the Basic Multilingual Plane. For such a character, every length and every `indexOf`/`substring` index counts differently. `length() - 1` at `Template.java:125` and `Main.java:285` would remove only half of such a char, but the model removes the whole char.
- Templates.StripAllComments: proved only for headers whose gaps and comments hold no `/` or `*`. Otherwise one replace can join two gaps into a new copy of a later comment and delete it too. For example, the gaps `x/` and `*b*/` join into a copy of the comment `b`. The result is then no longer the gaps.
- Templates.Template.LoadFile: on an exception, the contract gives only the exception, not the fields' partial state, because the caller exits.
- Processors.Processor.CreateBody: it requires every template to be non-null. In `build` a null template has already thrown in `createClassHeader`.
