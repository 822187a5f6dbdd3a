/** Entry-file generation of `packages/gendux-cli/src/index.ts`
    (`generateEntryFile`): the output path derived from the manifest path,
    and the generated module's text, built by string concatenation over the
    action keys in key order. `JSON.stringify` of a string is the parameter
    `quote`, about which nothing is assumed. */
module EntryFile {
  import opened Wrappers
  import opened Manifest
  import opened TextLines

  // ---------------------------------------------------------------------
  // Output path

  /** Scans `p` backwards from index `i` down to `start`, as POSIX
      `path.parse` does: trailing separators are skipped, then the last
      segment, and the separator met next ends the directory part. */
  function SeparatorBefore(p: string, start: nat, i: int, matchedSlash: bool): (k: int)
    requires -1 <= i < |p|
    ensures k == -1 || (start <= k <= i && p[k] == '/')
    decreases i + 1
  {
    if i < start then -1
    else if p[i] == '/' then (if matchedSlash then SeparatorBefore(p, start, i - 1, true) else i)
    else SeparatorBefore(p, start, i - 1, false)
  }

  /** `path.parse(p).dir` on POSIX: always a prefix of `p`. */
  function DirName(p: string): (d: string)
    ensures d <= p
    ensures '/' !in p ==> d == ""
  {
    if |p| == 0 then ""
    else
      var absolute := p[0] == '/';
      var k := SeparatorBefore(p, if absolute then 1 else 0, |p| - 1, true);
      if k >= 0 then p[..k]
      else if absolute then "/"
      else ""
  }

  /** The segment after the separator at `j` holds no separator, so the
      scan starting inside it stops at `j`. */
  lemma {:induction false} ScanStopsAtSeparator(p: string, start: nat, j: nat, i: nat, matchedSlash: bool)
    requires start <= j < i < |p|
    requires p[j] == '/'
    requires forall t :: j < t <= i ==> p[t] != '/'
    ensures SeparatorBefore(p, start, i, matchedSlash) == j
    decreases i
  {
    if i - 1 > j {
      ScanStopsAtSeparator(p, start, j, i - 1, false);
    }
  }

  /** The directory of `dir + "/" + file`, for a file name without a
      separator, is `dir`. */
  lemma DirNameOfChild(dir: string, file: string)
    requires |dir| > 0 && |file| > 0 && '/' !in file
    ensures DirName(dir + "/" + file) == dir
  {
    var p := dir + "/" + file;
    var start := if p[0] == '/' then 1 else 0;
    forall t | |dir| < t <= |p| - 1 ensures p[t] != '/' {
      assert p[t] == file[t - |dir| - 1];
    }
    ScanStopsAtSeparator(p, start, |dir|, |p| - 1, true);
    assert p[..|dir|] == dir;
  }

  /** `dir + "/src/index.ts"` for the manifest's directory. */
  function EntryFilePath(manifestPath: string): (out: string)
    ensures out == DirName(manifestPath) + "/src/index.ts"
    ensures DirName(manifestPath) <= manifestPath
  {
    DirName(manifestPath) + "/src/index.ts"
  }

  /** The entry file is written beside the manifest, under `src/`. */
  lemma EntryBesideManifest(dir: string, file: string)
    requires |dir| > 0 && |file| > 0 && '/' !in file
    ensures EntryFilePath(dir + "/" + file) == dir + "/src/index.ts"
  {
    DirNameOfChild(dir, file);
  }

  // ---------------------------------------------------------------------
  // Generated text

  // The fixed parts of the lines, as the template literal spells them.
  const ExportOpen := "                export {default as "
  const ImportOpen := "                import {default as "
  const FromClause := "} from "
  const RegisterOpen := "                packet.action("
  const ArgSeparator := ", "
  const CallClose := ")"
  const ImportHeader := "    import {packet} from \"gendux\""
  const PacketOpen := "    export default packet("
  const PacketClose := ", packet => {"

  /** None of the fixed parts breaks a line. */
  lemma FixedPartsSingleLine()
    ensures '\n' !in ExportOpen && '\n' !in ImportOpen && '\n' !in FromClause
    ensures '\n' !in RegisterOpen && '\n' !in ArgSeparator && '\n' !in CallClose
    ensures '\n' !in ImportHeader && '\n' !in PacketOpen && '\n' !in PacketClose
  {
    ExportPartsSingleLine();
    RegisterPartsSingleLine();
    PacketPartsSingleLine();
  }

  lemma ExportPartsSingleLine()
    ensures '\n' !in ExportOpen && '\n' !in ImportOpen && '\n' !in FromClause
  {
  }

  lemma RegisterPartsSingleLine()
    ensures '\n' !in RegisterOpen && '\n' !in ArgSeparator && '\n' !in CallClose
  {
  }

  lemma PacketPartsSingleLine()
    ensures '\n' !in ImportHeader && '\n' !in PacketOpen && '\n' !in PacketClose
  {
  }

  /** The line exporting action `name` from `path`. */
  function ExportLine(quote: string -> string, name: string, path: string): string {
    ExportOpen + name + FromClause + quote(path)
  }

  /** The line importing action `name` from `path`. */
  function ImportLine(quote: string -> string, name: string, path: string): string {
    ImportOpen + name + FromClause + quote(path)
  }

  /** The line registering action `name` with the packet. */
  function RegisterLine(quote: string -> string, name: string): string {
    RegisterOpen + quote(name) + ArgSeparator + name + CallClose
  }

  /** The template for one action in the export fragment: a newline, the
      export line, a newline, the import line. */
  function ExportPiece(quote: string -> string, name: string, path: string): string {
    "\n" + ExportLine(quote, name, path) + "\n" + ImportLine(quote, name, path)
  }

  /** The template for one action in the registration fragment: a newline
      and the registration line. */
  function RegisterPiece(quote: string -> string, name: string): string {
    "\n" + RegisterLine(quote, name)
  }

  /** `actionsExport`: one piece per action key, in key order, joined by
      newlines. */
  function ActionsExport(quote: string -> string, actions: Obj<ActionConfig>): string {
    Join(ExportPieces(quote, actions))
  }

  function ExportPieces(quote: string -> string, actions: Obj<ActionConfig>): seq<string> {
    seq(|actions.keys|, i requires 0 <= i < |actions.keys| =>
      ExportPiece(quote, actions.keys[i], actions.vals[actions.keys[i]].path))
  }

  /** `actionsRegister`: one piece per action key, in key order, joined by
      newlines. */
  function ActionsRegister(quote: string -> string, actions: Obj<ActionConfig>): string {
    Join(RegisterPieces(quote, actions))
  }

  function RegisterPieces(quote: string -> string, actions: Obj<ActionConfig>): seq<string> {
    seq(|actions.keys|, i requires 0 <= i < |actions.keys| => RegisterPiece(quote, actions.keys[i]))
  }

  /** `JSON.stringify(moduleName)` spliced into a template: a string is
      quoted, `null` prints as `null`, and `undefined` (no `name` property)
      prints as `undefined`. */
  function QuoteName(quote: string -> string, name: Field<string>): string {
    match name
    case Present(s) => quote(s)
    case Null => "null"
    case Absent => "undefined"
  }

  /** The line calling the `packet` factory with the quoted package name. */
  function PacketCallLine(quotedName: string): string {
    PacketOpen + quotedName + PacketClose
  }

  /** `entrySource`, the text of the generated module: the template literal
      written out line by line, each newline a separate piece. */
  function EntrySource(quote: string -> string, actions: Obj<ActionConfig>, name: Field<string>): string {
    "" + "\n" + ImportHeader
    + "\n" + ("    " + ActionsExport(quote, actions))
    + "\n" + "    "
    + "\n" + PacketCallLine(QuoteName(quote, name))
    + "\n" + ("        " + ActionsRegister(quote, actions))
    + "\n" + "    })"
    + "\n" + ""
    + "\n" + "    "
  }

  /** The export/import line pair for each key, in key order. */
  function ExportBlocks(quote: string -> string, actions: Obj<ActionConfig>): seq<seq<string>> {
    seq(|actions.keys|, i requires 0 <= i < |actions.keys| =>
      [ExportLine(quote, actions.keys[i], actions.vals[actions.keys[i]].path),
       ImportLine(quote, actions.keys[i], actions.vals[actions.keys[i]].path)])
  }

  /** The registration line for each key, in key order. */
  function RegisterBlocks(quote: string -> string, actions: Obj<ActionConfig>): seq<seq<string>> {
    seq(|actions.keys|, i requires 0 <= i < |actions.keys| => [RegisterLine(quote, actions.keys[i])])
  }

  /** No action name, quoted name or quoted path can break a line. */
  ghost predicate SingleLineFragments(quote: string -> string, actions: Obj<ActionConfig>) {
    forall k :: k in actions.vals ==> '\n' !in k && '\n' !in quote(k) && '\n' !in quote(actions.vals[k].path)
  }

  /** An export piece is a newline and then the export and import lines. */
  lemma ExportPieceLines(quote: string -> string, name: string, path: string)
    requires '\n' !in name && '\n' !in quote(path)
    ensures var e := ExportLine(quote, name, path);
      var m := ImportLine(quote, name, path);
      && ExportPiece(quote, name, path) == "\n" + (e + "\n" + m)
      && Lines(e + "\n" + m) == [e, m]
  {
    var e := ExportLine(quote, name, path);
    var m := ImportLine(quote, name, path);
    FixedPartsSingleLine();
    NoNewlineIn4(ExportOpen, name, FromClause, quote(path));
    NoNewlineIn4(ImportOpen, name, FromClause, quote(path));
    LinesOfSplit(e, m);
    LinesOfLine(e);
    LinesOfLine(m);
  }

  /** A registration piece is a newline and then the registration line. */
  lemma RegisterPieceLines(quote: string -> string, name: string)
    requires '\n' !in name && '\n' !in quote(name)
    ensures Lines(RegisterLine(quote, name)) == [RegisterLine(quote, name)]
  {
    FixedPartsSingleLine();
    NoNewlineIn4(RegisterOpen, quote(name), ArgSeparator, name);
    NoNewlineIn(RegisterOpen + quote(name) + ArgSeparator + name, CallClose, "");
    LinesOfLine(RegisterLine(quote, name));
  }

  lemma ExportFragmentLines(quote: string -> string, actions: Obj<ActionConfig>)
    requires SingleLineFragments(quote, actions)
    ensures Lines("    " + ActionsExport(quote, actions)) == ["    "] + Interleave(ExportBlocks(quote, actions))
  {
    var keys := actions.keys;
    var pieces := ExportPieces(quote, actions);
    var blocks := ExportBlocks(quote, actions);
    var bodies := seq(|keys|, i requires 0 <= i < |keys| =>
      ExportLine(quote, keys[i], actions.vals[keys[i]].path) + "\n" + ImportLine(quote, keys[i], actions.vals[keys[i]].path));
    forall i | 0 <= i < |pieces|
      ensures pieces[i] == "\n" + bodies[i] && Lines(bodies[i]) == blocks[i]
    {
      ExportPieceLines(quote, keys[i], actions.vals[keys[i]].path);
    }
    LinesOfPieces("    ", pieces, bodies, blocks);
  }

  lemma RegisterFragmentLines(quote: string -> string, actions: Obj<ActionConfig>)
    requires SingleLineFragments(quote, actions)
    ensures Lines("        " + ActionsRegister(quote, actions)) == ["        "] + Interleave(RegisterBlocks(quote, actions))
  {
    var keys := actions.keys;
    var pieces := RegisterPieces(quote, actions);
    var blocks := RegisterBlocks(quote, actions);
    var bodies := seq(|keys|, i requires 0 <= i < |keys| => RegisterLine(quote, keys[i]));
    forall i | 0 <= i < |pieces|
      ensures pieces[i] == "\n" + bodies[i] && Lines(bodies[i]) == blocks[i]
    {
      RegisterPieceLines(quote, keys[i]);
    }
    LinesOfPieces("        ", pieces, bodies, blocks);
  }

  /** The generated module, line by line: the fixed header importing the
      `packet` factory, then for every action key in key order its export
      line and its import line (both naming the quoted path), then the
      default export calling `packet` with the quoted package name, then one
      registration call per action key in key order, then the fixed footer. */
  lemma EntrySourceLines(quote: string -> string, actions: Obj<ActionConfig>, name: Field<string>)
    requires SingleLineFragments(quote, actions)
    requires '\n' !in QuoteName(quote, name)
    ensures Lines(EntrySource(quote, actions, name)) ==
      ["", ImportHeader, "    "]
      + Interleave(ExportBlocks(quote, actions))
      + ["    ", PacketCallLine(QuoteName(quote, name)), "        "]
      + Interleave(RegisterBlocks(quote, actions))
      + ["    })", "", "    "]
  {
    var call := PacketCallLine(QuoteName(quote, name));
    assert '\n' !in call by {
      FixedPartsSingleLine();
      NoNewlineIn(PacketOpen, QuoteName(quote, name), PacketClose);
    }
    ExportFragmentLines(quote, actions);
    RegisterFragmentLines(quote, actions);
    TemplateLines(ImportHeader, ActionsExport(quote, actions), call, ActionsRegister(quote, actions),
                  Interleave(ExportBlocks(quote, actions)), Interleave(RegisterBlocks(quote, actions)));
  }

  /** The line structure of the template around its two fragments, for any
      fragments whose lines are known. */
  lemma TemplateLines(header: string, e: string, call: string, r: string, ie: seq<string>, ir: seq<string>)
    requires '\n' !in header && '\n' !in call
    requires Lines("    " + e) == ["    "] + ie
    requires Lines("        " + r) == ["        "] + ir
    ensures Lines("" + "\n" + header + "\n" + ("    " + e) + "\n" + "    " + "\n" + call
                  + "\n" + ("        " + r) + "\n" + "    })" + "\n" + "" + "\n" + "    ")
         == ["", header, "    "] + ie + ["    ", call, "        "] + ir + ["    })", "", "    "]
  {
    var a4 := "" + "\n" + header + "\n" + ("    " + e) + "\n" + "    " + "\n" + call;
    TemplateHeadLines(header, e, call, ie);
    var l4 := ["", header] + (["    "] + ie) + ["    "] + [call];
    LinesOfLine("    })"); LinesOfLine(""); LinesOfLine("    ");
    var a5 := a4 + "\n" + ("        " + r);
    LinesOfSplit(a4, "        " + r);
    var a6 := a5 + "\n" + "    })";
    LinesOfSplit(a5, "    })");
    var a7 := a6 + "\n" + "";
    LinesOfSplit(a6, "");
    LinesOfSplit(a7, "    ");
    assert Lines(a7 + "\n" + "    ") == l4 + (["        "] + ir) + ["    })"] + [""] + ["    "];
    Regroup(header, call, ie, ir);
  }

  /** The first four lines of the template, up to the `packet` call. */
  lemma TemplateHeadLines(header: string, e: string, call: string, ie: seq<string>)
    requires '\n' !in header && '\n' !in call
    requires Lines("    " + e) == ["    "] + ie
    ensures Lines("" + "\n" + header + "\n" + ("    " + e) + "\n" + "    " + "\n" + call)
         == ["", header] + (["    "] + ie) + ["    "] + [call]
  {
    var a1 := "" + "\n" + header;
    var a2 := a1 + "\n" + ("    " + e);
    var a3 := a2 + "\n" + "    ";
    LinesOfLine(""); LinesOfLine(header); LinesOfLine("    "); LinesOfLine(call);
    LinesOfSplit("", header);
    assert Lines(a1) == ["", header];
    LinesOfSplit(a1, "    " + e);
    assert Lines(a2) == ["", header] + (["    "] + ie);
    LinesOfSplit(a2, "    ");
    assert Lines(a3) == ["", header] + (["    "] + ie) + ["    "];
    LinesOfSplit(a3, call);
  }

  /** Sequence bookkeeping for `TemplateLines`, kept apart so that `Lines`
      is not unfolded while regrouping. */
  lemma Regroup(header: string, call: string, ie: seq<string>, ir: seq<string>)
    ensures ["", header] + (["    "] + ie) + ["    "] + [call] + (["        "] + ir) + ["    })"] + [""] + ["    "]
         == ["", header, "    "] + ie + ["    ", call, "        "] + ir + ["    })", "", "    "]
  {
  }

  lemma NoNewlineIn(a: string, b: string, c: string)
    requires '\n' !in a && '\n' !in b && '\n' !in c
    ensures '\n' !in a + b + c
  {
  }

  lemma NoNewlineIn4(a: string, b: string, c: string, d: string)
    requires '\n' !in a && '\n' !in b && '\n' !in c && '\n' !in d
    ensures '\n' !in a + b + c + d
  {
  }

  /** The text and the path `generateEntryFile` writes. */
  datatype EntryFile = EntryFile(path: string, text: string)

  /** `generateEntryFile(packageJsonPath)` up to the write: the config is
      read first, then the package name, and the first failure is the one
      reported; otherwise the text is the template over the defaulted
      actions and the name, to be written beside the manifest. */
  function GenerateEntryFile(quote: string -> string, manifestPath: string, file: ManifestFile): (r: Result<EntryFile, string>)
    ensures !ConfigReadable(file) ==> r == Err(ConfigError(manifestPath))
    ensures ConfigReadable(file) && file.document.NullDocument? ==> r == Err(NameError(manifestPath))
    ensures r.Ok? <==> ConfigReadable(file) && file.document.ObjectDocument?
    ensures r.Ok? ==> r.value.path == DirName(manifestPath) + "/src/index.ts"
    ensures r.Ok? ==>
      var actions := GetGenduxConfig(manifestPath, file).value.actions;
      && actions.keys == OwnKeys(OrEmpty(ActionsOf(Section(file.document))).keys)
      && r.value.text == EntrySource(quote, actions, file.document.name)
  {
    var config :- GetGenduxConfig(manifestPath, file);
    var name :- GetPackageName(manifestPath, file);
    Ok(EntryFile(EntryFilePath(manifestPath), EntrySource(quote, config.actions, name)))
  }

  /** A manifest declaring the single action `addTodo` at `./addTodo`, in a
      package named `demo`. */
  function AddTodoManifest(): ManifestFile {
    Parsed(ObjectDocument(Present(RawSection(Absent, Present(AddTodoRaw()))), Present("demo")))
  }

  /** Its `actions` object as written. */
  function AddTodoRaw(): Obj<Option<RawAction>> {
    JsonObject(["addTodo"], map["addTodo" := Some(RawAction(Some("./addTodo")))])
  }

  /** For that manifest at `dir + "/" + file`, the entry file goes to
      `dir + "/src/index.ts"` and consists of the template with one export
      line, one import line and one registration for `addTodo`. */
  lemma AddTodoEntryFile(quote: string -> string, dir: string, file: string)
    requires |dir| > 0 && |file| > 0 && '/' !in file
    requires '\n' !in quote("./addTodo") && '\n' !in quote("addTodo") && '\n' !in quote("demo")
    ensures GenerateEntryFile(quote, dir + "/" + file, AddTodoManifest()).Ok?
    ensures GenerateEntryFile(quote, dir + "/" + file, AddTodoManifest()).value.path == dir + "/src/index.ts"
    ensures Lines(GenerateEntryFile(quote, dir + "/" + file, AddTodoManifest()).value.text) ==
      [ "",
        "    import {packet} from \"gendux\"",
        "    ",
        "                export {default as " + "addTodo" + "} from " + quote("./addTodo"),
        "                import {default as " + "addTodo" + "} from " + quote("./addTodo"),
        "    ",
        "    export default packet(" + quote("demo") + ", packet => {",
        "        ",
        "                packet.action(" + quote("addTodo") + ", " + "addTodo" + ")",
        "    })",
        "",
        "    " ]
  {
    var path := dir + "/" + file;
    AddTodoConfig(path);
    EntryBesideManifest(dir, file);
    AddTodoLines(quote);
  }

  /** The one action `addTodo` at `./addTodo`, after defaulting. */
  function AddTodoActions(): Obj<ActionConfig> {
    JsonObject(["addTodo"], map["addTodo" := ActionConfig("./addTodo")])
  }

  /** The config read from that manifest holds exactly `addTodo`. */
  lemma AddTodoConfig(path: string)
    ensures GetGenduxConfig(path, AddTodoManifest()).Ok?
    ensures GetGenduxConfig(path, AddTodoManifest()).value.actions == AddTodoActions()
  {
    ActionsOnlyConfig(path, AddTodoRaw(), Present("demo"));
    AddTodoDefaults();
  }

  /** A manifest whose `gendux` section holds only `actions` reads as those
      actions defaulted. */
  lemma ActionsOnlyConfig(path: string, raw: Obj<Option<RawAction>>, name: Field<string>)
    ensures var file := Parsed(ObjectDocument(Present(RawSection(Absent, Present(raw))), name));
      && GetGenduxConfig(path, file).Ok?
      && GetGenduxConfig(path, file).value.actions == DefaultEntries(raw, DefaultAction)
  {
  }

  /** Defaulting that `actions` object changes nothing but the wrapping. */
  lemma AddTodoDefaults()
    ensures DefaultEntries(AddTodoRaw(), DefaultAction) == AddTodoActions()
  {
    SingleEntryDefaults("addTodo", Some(RawAction(Some("./addTodo"))), DefaultAction);
  }

  /** Defaulting an object of one entry gives the object of that entry
      passed through `fill`, or the empty object when the key is
      `ProtoKey`. */
  lemma SingleEntryDefaults<R, C>(key: string, entry: R, fill: R -> C)
    ensures var raw: Obj<R> := JsonObject([key], map[key := entry]);
      DefaultEntries(raw, fill)
        == if key == ProtoKey then JsonObject([], map[]) else JsonObject([key], map[key := fill(entry)])
  {
    var raw: Obj<R> := JsonObject([key], map[key := entry]);
    assert DefaultEntries(raw, fill) == Fold(raw, fill, 1);
    assert Fold(raw, fill, 0) == JsonObject([], map[]);
    if key == ProtoKey {
      assert Fold(raw, fill, 1) == Fold(raw, fill, 0);
    } else {
      assert map[][key := fill(entry)] == map[key := fill(entry)];
    }
  }

  /** An action declared under the key `__proto__` is lost while defaulting,
      so the entry file exports, imports and registers nothing for it. */
  lemma ProtoActionDropped(quote: string -> string, path: string, entry: Option<RawAction>, name: Field<string>)
    ensures var raw: Obj<Option<RawAction>> := JsonObject([ProtoKey], map[ProtoKey := entry]);
      var file := Parsed(ObjectDocument(Present(RawSection(Absent, Present(raw))), name));
      && GetGenduxConfig(path, file).Ok?
      && GetGenduxConfig(path, file).value.actions.keys == []
      && ActionsExport(quote, GetGenduxConfig(path, file).value.actions) == ""
      && ActionsRegister(quote, GetGenduxConfig(path, file).value.actions) == ""
  {
    var raw: Obj<Option<RawAction>> := JsonObject([ProtoKey], map[ProtoKey := entry]);
    ActionsOnlyConfig(path, raw, name);
    SingleEntryDefaults(ProtoKey, entry, DefaultAction);
  }

  /** The lines of the template over `addTodo` in the package `demo`. */
  lemma AddTodoLines(quote: string -> string)
    requires '\n' !in quote("./addTodo") && '\n' !in quote("addTodo") && '\n' !in quote("demo")
    ensures Lines(EntrySource(quote, AddTodoActions(), Present("demo"))) ==
      [ "",
        "    import {packet} from \"gendux\"",
        "    ",
        "                export {default as " + "addTodo" + "} from " + quote("./addTodo"),
        "                import {default as " + "addTodo" + "} from " + quote("./addTodo"),
        "    ",
        "    export default packet(" + quote("demo") + ", packet => {",
        "        ",
        "                packet.action(" + quote("addTodo") + ", " + "addTodo" + ")",
        "    })",
        "",
        "    " ]
  {
    var actions := AddTodoActions();
    assert SingleLineFragments(quote, actions);
    EntrySourceLines(quote, actions, Present("demo"));
    assert Interleave(ExportBlocks(quote, actions)) == [ExportLine(quote, "addTodo", "./addTodo"), ImportLine(quote, "addTodo", "./addTodo")];
    assert Interleave(RegisterBlocks(quote, actions)) == [RegisterLine(quote, "addTodo")];
  }
}
