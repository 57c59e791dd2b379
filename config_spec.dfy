/** What loading a configuration means, as functions on values: the static
    queries of `Config` (`HasTable`, `CreateShaderPath`), the check of one
    option, the fail-fast sections, and the whole load. The class in
    `Configuration` is proved to compute exactly these; the lemmas below state
    what they promise. */
module ConfigSpec {
  import opened Results
  import opened EnumList
  import opened Text
  import opened MandelbrotErrors
  import opened Toml
  import opened Paths
  import opened ConfigSchema

  // ----- The errors the loader reports -----

  function ConfigFileNotFound(path: string): MandelbrotError
  {
    MandelbrotError(FileNotFound, "Config file not found: " + path)
  }

  /** The message is built from one diagnostic only. */
  function ParseFailure(diagnostic: string): MandelbrotError
  {
    MandelbrotError(ParseError, "Failed to parse config file:\n" + diagnostic)
  }

  function MissingTable(table: string): MandelbrotError
  {
    MandelbrotError(ParseError, "Missing table in config file: " + table)
  }

  function MissingWindowOption(name: string): MandelbrotError
  {
    MandelbrotError(MissingOption, "Missing window config option: " + name)
  }

  function MissingShaderOption(name: string): MandelbrotError
  {
    MandelbrotError(MissingOption, "Missing shader config option: " + name)
  }

  function WrongType(name: string, expected: string): MandelbrotError
  {
    MandelbrotError(InvalidValue, "Config option " + name + " must be " + expected)
  }

  function OutOfRange(name: string, value: int, min: int, max: int): MandelbrotError
  {
    MandelbrotError(InvalidValue,
      "Config option " + name + " = " + IntString(value) +
      " is outside [" + IntString(min) + ", " + IntString(max) + "]")
  }

  function ShaderFileNotFound(path: string): MandelbrotError
  {
    MandelbrotError(FileNotFound, "Shader file not found: " + path)
  }

  // ----- Static queries of Config -----

  /** `HasTable`: the top-level key exists and holds a table (not a scalar, and
      not an array of tables). */
  predicate HasTable(root: Root, tableName: string)
  {
    tableName in root && root[tableName].Table?
  }

  /** `CreateShaderPath`: the empty name stands for a disabled stage and gives
      the empty path; any other name is placed under the project root. */
  function CreateShaderPath(fileName: string, projectRoot: string): (path: string)
    ensures path == "" <==> fileName == ""
    ensures fileName != "" ==> path == Join(projectRoot, fileName)
  {
    if fileName == "" then "" else Join(projectRoot, fileName)
  }

  function WindowTable(root: Root): map<string, Value>
    requires HasTable(root, WINDOW_TABLE_NAME)
  {
    root[WINDOW_TABLE_NAME].entries
  }

  function ShaderTable(root: Root): map<string, Value>
    requires HasTable(root, SHADER_TABLE_NAME)
  {
    root[SHADER_TABLE_NAME].entries
  }

  // ----- One option -----

  /** One step of the window loop: the option must be present, an integer, and
      within its bounds. */
  function WindowOptionValue(window: map<string, Value>, option: WindowOption): Result<int, MandelbrotError>
  {
    var name := WindowOptionName(option);
    if name !in window then Err(MissingWindowOption(name))
    else match window[name]
      case Int(v) =>
        if InBounds(option, v) then Ok(v)
        else Err(OutOfRange(name, v, WindowMin(option), WindowMax(option)))
      case _ => Err(WrongType(name, "an integer"))
  }

  /** One step of the shader loop: the option must be present and a string; a
      non-empty name must resolve to a file that exists. */
  function ShaderPathValue(shaders: map<string, Value>, shader: ShaderType, fs: FileSystem, projectRoot: string)
    : Result<string, MandelbrotError>
  {
    var name := ShaderTypeName(shader);
    if name !in shaders then Err(MissingShaderOption(name))
    else match shaders[name]
      case Str(fileName) =>
        var path := CreateShaderPath(fileName, projectRoot);
        if path == "" || path in fs then Ok(path) else Err(ShaderFileNotFound(path))
      case _ => Err(WrongType(name, "a string"))
  }

  // ----- The two sections, fail-fast in declaration order -----

  function WindowResults(window: map<string, Value>): seq<Result<int, MandelbrotError>>
  {
    seq(WINDOW_OPTIONS_COUNT, i requires 0 <= i < WINDOW_OPTIONS_COUNT =>
      WindowOptionValue(window, WindowOptionAt(i)))
  }

  function ShaderResults(shaders: map<string, Value>, fs: FileSystem, projectRoot: string)
    : seq<Result<string, MandelbrotError>>
  {
    seq(SHADER_TYPES_COUNT, i requires 0 <= i < SHADER_TYPES_COUNT =>
      ShaderPathValue(shaders, ShaderTypeAt(i), fs, projectRoot))
  }

  function WindowValues(window: map<string, Value>): Result<seq<int>, MandelbrotError>
  {
    Collect(WindowResults(window))
  }

  function ShaderPaths(shaders: map<string, Value>, fs: FileSystem, projectRoot: string)
    : Result<seq<string>, MandelbrotError>
  {
    Collect(ShaderResults(shaders, fs, projectRoot))
  }

  // ----- The whole load -----

  /** The observable contents of a `Config`: one value per window option and
      one path per shader type, each at its enumerator's index. */
  datatype ConfigValues = ConfigValues(window: seq<int>, shaderPaths: seq<string>)

  /** `Config::Load`: existence of the config file, parse, the two tables in
      order, the window options, then the shader options; the first failure is
      the result. */
  function LoadSpec(configFile: string, fs: FileSystem, projectRoot: string, doc: ParseResult)
    : Result<ConfigValues, MandelbrotError>
  {
    if configFile !in fs then Err(ConfigFileNotFound(configFile))
    else match doc
      case Failed(errors) => Err(ParseFailure(errors[0]))
      case Parsed(root) =>
        if !HasTable(root, WINDOW_TABLE_NAME) then Err(MissingTable(WINDOW_TABLE_NAME))
        else if !HasTable(root, SHADER_TABLE_NAME) then Err(MissingTable(SHADER_TABLE_NAME))
        else match WindowValues(WindowTable(root))
          case Err(e) => Err(e)
          case Ok(window) =>
            match ShaderPaths(ShaderTable(root), fs, projectRoot)
            case Err(e) => Err(e)
            case Ok(paths) => Ok(ConfigValues(window, paths))
  }

  // ----- What one option check promises -----

  /** A window option succeeds exactly when it is present, an integer and in
      bounds, and then gives that integer. It fails with `MissingOption` exactly
      when it is absent and with `InvalidValue` exactly when it is present (a
      float, string, boolean, date, table or array, or an integer out of
      bounds). Every failure names the option; an out-of-range one also names
      both bounds and the offending value. */
  lemma WindowOptionValueMeaning(window: map<string, Value>, option: WindowOption)
    ensures var r := WindowOptionValue(window, option);
            var name := WindowOptionName(option);
            && (r.Ok? <==> name in window && window[name].Int? && InBounds(option, window[name].i))
            && (r.Ok? ==> r.value == window[name].i && InBounds(option, r.value))
            && (r.Err? ==> (r.error.code == MissingOption <==> name !in window))
            && (r.Err? ==> (r.error.code == InvalidValue <==> name in window))
            && (r.Err? ==> Mentions(r.error.message, name))
  {
    var name := WindowOptionName(option);
    ErrorMessagesMention(name, "an integer");
    if name in window && window[name].Int? {
      OutOfRangeMessage(name, window[name].i, WindowMin(option), WindowMax(option));
    }
  }

  /** Every error the loader builds names the thing it is about. */
  lemma ErrorMessagesMention(name: string, expected: string)
    ensures Mentions(ConfigFileNotFound(name).message, name)
    ensures Mentions(ParseFailure(name).message, name)
    ensures Mentions(MissingTable(name).message, name)
    ensures Mentions(MissingWindowOption(name).message, name)
    ensures Mentions(MissingShaderOption(name).message, name)
    ensures Mentions(WrongType(name, expected).message, name)
    ensures Mentions(ShaderFileNotFound(name).message, name)
  {
    MentionsAtEnd("Config file not found: ", name);
    MentionsAtEnd("Failed to parse config file:\n", name);
    MentionsAtEnd("Missing table in config file: ", name);
    MentionsAtEnd("Missing window config option: ", name);
    MentionsAtEnd("Missing shader config option: ", name);
    MentionsAtEnd("Shader file not found: ", name);
    MentionsAtEnd("Config option ", name);
    MentionsExtended("Config option " + name, name, " must be ");
    MentionsExtended("Config option " + name + " must be ", name, expected);
  }

  /** An out-of-range window value is reported with the option, both bounds and
      the value it had. */
  lemma OutOfRangeMessage(name: string, value: int, min: int, max: int)
    ensures var m := OutOfRange(name, value, min, max).message;
            Mentions(m, name) && Mentions(m, IntString(value)) &&
            Mentions(m, IntString(min)) && Mentions(m, IntString(max))
  {
    var a, b, c := IntString(value), IntString(min), IntString(max);
    var t1 := "Config option " + name;
    var t2 := t1 + " = " + a;
    var t3 := t2 + " is outside [" + b;
    var t4 := t3 + ", " + c;
    assert OutOfRange(name, value, min, max).message == t4 + "]";
    MentionsAtEnd("Config option ", name);
    MentionsExtended(t1, name, " = ");
    MentionsExtended(t1 + " = ", name, a);
    MentionsExtended(t2, name, " is outside [");
    MentionsExtended(t2 + " is outside [", name, b);
    MentionsExtended(t3, name, ", ");
    MentionsExtended(t3 + ", ", name, c);
    MentionsExtended(t4, name, "]");
    MentionsAtEnd(t1 + " = ", a);
    MentionsExtended(t2, a, " is outside [");
    MentionsExtended(t2 + " is outside [", a, b);
    MentionsExtended(t3, a, ", ");
    MentionsExtended(t3 + ", ", a, c);
    MentionsExtended(t4, a, "]");
    MentionsAtEnd(t2 + " is outside [", b);
    MentionsExtended(t3, b, ", ");
    MentionsExtended(t3 + ", ", b, c);
    MentionsExtended(t4, b, "]");
    MentionsAtEnd(t3 + ", ", c);
    MentionsExtended(t4, c, "]");
  }

  /** A shader option succeeds exactly when it is a string whose path is empty
      or exists, and then gives `CreateShaderPath` of it. It fails with
      `MissingOption` exactly when absent, with `InvalidValue` exactly when
      present but not a string, and with `FileNotFound` exactly when its
      non-empty name resolves under the root to a path that does not exist; the
      message then names that path. */
  lemma ShaderPathValueMeaning(shaders: map<string, Value>, shader: ShaderType, fs: FileSystem, projectRoot: string)
    ensures var r := ShaderPathValue(shaders, shader, fs, projectRoot);
            var name := ShaderTypeName(shader);
            && (r.Ok? <==> name in shaders && shaders[name].Str? &&
                           (shaders[name].s == "" || Join(projectRoot, shaders[name].s) in fs))
            && (r.Ok? ==> r.value == CreateShaderPath(shaders[name].s, projectRoot))
            && (r.Err? ==> (r.error.code == MissingOption <==> name !in shaders))
            && (r.Err? ==> (r.error.code == InvalidValue <==> name in shaders && !shaders[name].Str?))
            && (r.Err? ==> (r.error.code == FileNotFound <==>
                              name in shaders && shaders[name].Str? && shaders[name].s != "" &&
                              Join(projectRoot, shaders[name].s) !in fs))
            && (r.Err? && r.error.code == FileNotFound ==>
                  Mentions(r.error.message, Join(projectRoot, shaders[name].s)))
            && (r.Err? && r.error.code != FileNotFound ==> Mentions(r.error.message, name))
  {
    var name := ShaderTypeName(shader);
    ErrorMessagesMention(name, "a string");
    if name in shaders && shaders[name].Str? {
      ErrorMessagesMention(Join(projectRoot, shaders[name].s), "");
    }
  }

  // ----- The sections -----

  /** In terms of the single checks: the window section succeeds exactly when
      every option does, and then holds each value at its option's index. */
  lemma WindowValuesMeaning(window: map<string, Value>)
    ensures WindowValues(window).Ok? <==> forall o :: WindowOptionValue(window, o).Ok?
    ensures WindowValues(window).Ok? ==>
              |WindowValues(window).value| == WINDOW_OPTIONS_COUNT &&
              forall o :: WindowValues(window).value[WindowIndex(o)] == WindowOptionValue(window, o).value
  {
    var rs := WindowResults(window);
    CollectOk(rs);
    assert forall o :: rs[WindowIndex(o)] == WindowOptionValue(window, o);
  }

  lemma ShaderPathsMeaning(shaders: map<string, Value>, fs: FileSystem, projectRoot: string)
    ensures ShaderPaths(shaders, fs, projectRoot).Ok? <==>
              forall t :: ShaderPathValue(shaders, t, fs, projectRoot).Ok?
    ensures ShaderPaths(shaders, fs, projectRoot).Ok? ==>
              |ShaderPaths(shaders, fs, projectRoot).value| == SHADER_TYPES_COUNT &&
              forall t :: ShaderPaths(shaders, fs, projectRoot).value[ShaderIndex(t)] ==
                          ShaderPathValue(shaders, t, fs, projectRoot).value
  {
    var rs := ShaderResults(shaders, fs, projectRoot);
    CollectOk(rs);
    assert forall t :: rs[ShaderIndex(t)] == ShaderPathValue(shaders, t, fs, projectRoot);
  }

  // ----- What a load promises -----

  /** A load succeeds exactly when the file exists, it parses, both sections are
      tables and every option passes its check; the result then holds each
      option's checked value at its index. */
  lemma LoadSucceeds(configFile: string, fs: FileSystem, projectRoot: string, doc: ParseResult)
    ensures LoadSpec(configFile, fs, projectRoot, doc).Ok? <==>
              && configFile in fs && doc.Parsed?
              && HasTable(doc.root, WINDOW_TABLE_NAME) && HasTable(doc.root, SHADER_TABLE_NAME)
              && (forall o :: WindowOptionValue(WindowTable(doc.root), o).Ok?)
              && (forall t :: ShaderPathValue(ShaderTable(doc.root), t, fs, projectRoot).Ok?)
    ensures LoadSpec(configFile, fs, projectRoot, doc).Ok? ==>
              var c := LoadSpec(configFile, fs, projectRoot, doc).value;
              && |c.window| == WINDOW_OPTIONS_COUNT && |c.shaderPaths| == SHADER_TYPES_COUNT
              && (forall o :: c.window[WindowIndex(o)] == WindowOptionValue(WindowTable(doc.root), o).value)
              && (forall t :: c.shaderPaths[ShaderIndex(t)] ==
                                ShaderPathValue(ShaderTable(doc.root), t, fs, projectRoot).value)
  {
    if configFile in fs && doc.Parsed? && HasTable(doc.root, WINDOW_TABLE_NAME) && HasTable(doc.root, SHADER_TABLE_NAME) {
      WindowValuesMeaning(WindowTable(doc.root));
      ShaderPathsMeaning(ShaderTable(doc.root), fs, projectRoot);
    }
  }

  /** Every successful load has width and height in [64, 16384] and fps in
      [1, 1000]; each shader path is empty, or is a name placed under the
      project root that names an existing file. */
  lemma LoadSuccessBounds(configFile: string, fs: FileSystem, projectRoot: string, doc: ParseResult)
    requires LoadSpec(configFile, fs, projectRoot, doc).Ok?
    ensures var c := LoadSpec(configFile, fs, projectRoot, doc).value;
            && |c.window| == 3 && |c.shaderPaths| == 2
            && 64 <= c.window[WindowIndex(Width)] <= 16384
            && 64 <= c.window[WindowIndex(Height)] <= 16384
            && 1 <= c.window[WindowIndex(Fps)] <= 1000
            && forall t :: c.shaderPaths[ShaderIndex(t)] == "" ||
                           (c.shaderPaths[ShaderIndex(t)] in fs &&
                            exists name :: name != "" && c.shaderPaths[ShaderIndex(t)] == Join(projectRoot, name))
  {
    LoadSucceeds(configFile, fs, projectRoot, doc);
    var root := doc.root;
    forall o ensures InBounds(o, LoadSpec(configFile, fs, projectRoot, doc).value.window[WindowIndex(o)]) {
      WindowOptionValueMeaning(WindowTable(root), o);
    }
    var c := LoadSpec(configFile, fs, projectRoot, doc).value;
    forall t ensures c.shaderPaths[ShaderIndex(t)] == "" ||
                     (c.shaderPaths[ShaderIndex(t)] in fs &&
                      exists name :: name != "" && c.shaderPaths[ShaderIndex(t)] == Join(projectRoot, name))
    {
      ShaderPathValueMeaning(ShaderTable(root), t, fs, projectRoot);
      var fileName := ShaderTable(root)[ShaderTypeName(t)].s;
      if fileName != "" {
        assert c.shaderPaths[ShaderIndex(t)] == Join(projectRoot, fileName);
      }
    }
  }

  /** A config file that does not exist is reported as `FileNotFound`, naming
      it, whatever the document would have been. */
  lemma LoadMissingConfigFile(configFile: string, fs: FileSystem, projectRoot: string, doc: ParseResult)
    requires configFile !in fs
    ensures LoadSpec(configFile, fs, projectRoot, doc).Err?
    ensures LoadSpec(configFile, fs, projectRoot, doc).error.code == FileNotFound
    ensures Mentions(LoadSpec(configFile, fs, projectRoot, doc).error.message, configFile)
  {
    ErrorMessagesMention(configFile, "");
  }

  /** A document the parser rejects gives `ParseError` whose message mentions
      the first diagnostic and depends on nothing else: two failures with the
      same first diagnostic give the same error. */
  lemma LoadParseFailure(configFile: string, fs: FileSystem, projectRoot: string, errors: Diagnostics, others: Diagnostics)
    requires configFile in fs
    requires others[0] == errors[0]
    ensures LoadSpec(configFile, fs, projectRoot, Failed(errors)).Err?
    ensures LoadSpec(configFile, fs, projectRoot, Failed(errors)).error.code == ParseError
    ensures Mentions(LoadSpec(configFile, fs, projectRoot, Failed(errors)).error.message, errors[0])
    ensures LoadSpec(configFile, fs, projectRoot, Failed(errors)) == LoadSpec(configFile, fs, projectRoot, Failed(others))
  {
    ErrorMessagesMention(errors[0], "");
  }

  /** The window table is required first, then the shaders table; a missing
      one, or one that is a scalar or an array of tables, gives `ParseError`
      naming it. */
  lemma LoadRequiresTables(configFile: string, fs: FileSystem, projectRoot: string, root: Root)
    requires configFile in fs
    requires !HasTable(root, WINDOW_TABLE_NAME) || !HasTable(root, SHADER_TABLE_NAME)
    ensures var r := LoadSpec(configFile, fs, projectRoot, Parsed(root));
            && r.Err? && r.error.code == ParseError
            && (!HasTable(root, WINDOW_TABLE_NAME) ==> Mentions(r.error.message, "window"))
            && (HasTable(root, WINDOW_TABLE_NAME) ==> Mentions(r.error.message, "shaders"))
  {
    ErrorMessagesMention(WINDOW_TABLE_NAME, "");
    ErrorMessagesMention(SHADER_TABLE_NAME, "");
  }

  /** An array of tables under a section name is not a table. */
  lemma ArrayOfTablesIsNoTable(root: Root, name: string, tables: seq<map<string, Value>>)
    requires name in root && root[name] == Array(seq(|tables|, i requires 0 <= i < |tables| => Table(tables[i])))
    ensures !HasTable(root, name)
  {
  }

  /** Window options are checked in declaration order: when every option
      before `option` passes and `option` fails, the load fails with exactly
      that option's error, whatever the later options and the shaders hold. */
  lemma LoadFirstWindowFailure(configFile: string, fs: FileSystem, projectRoot: string, root: Root, option: WindowOption)
    requires configFile in fs
    requires HasTable(root, WINDOW_TABLE_NAME) && HasTable(root, SHADER_TABLE_NAME)
    requires forall p :: WindowIndex(p) < WindowIndex(option) ==> WindowOptionValue(WindowTable(root), p).Ok?
    requires WindowOptionValue(WindowTable(root), option).Err?
    ensures LoadSpec(configFile, fs, projectRoot, Parsed(root)) == Err(WindowOptionValue(WindowTable(root), option).error)
  {
    var rs := WindowResults(WindowTable(root));
    var k := WindowIndex(option);
    forall j | 0 <= j < k ensures rs[j].Ok? {
      assert WindowIndex(WindowOptionAt(j)) == j;
    }
    CollectFirstError(rs, k);
  }

  /** Shader options are examined only once every window option has passed,
      in declaration order: when every shader before `shader` passes and
      `shader` fails, the load fails with exactly that shader's error. */
  lemma LoadFirstShaderFailure(configFile: string, fs: FileSystem, projectRoot: string, root: Root, shader: ShaderType)
    requires configFile in fs
    requires HasTable(root, WINDOW_TABLE_NAME) && HasTable(root, SHADER_TABLE_NAME)
    requires forall o :: WindowOptionValue(WindowTable(root), o).Ok?
    requires forall t :: ShaderIndex(t) < ShaderIndex(shader) ==> ShaderPathValue(ShaderTable(root), t, fs, projectRoot).Ok?
    requires ShaderPathValue(ShaderTable(root), shader, fs, projectRoot).Err?
    ensures LoadSpec(configFile, fs, projectRoot, Parsed(root)) ==
            Err(ShaderPathValue(ShaderTable(root), shader, fs, projectRoot).error)
  {
    WindowValuesMeaning(WindowTable(root));
    var rs := ShaderResults(ShaderTable(root), fs, projectRoot);
    var k := ShaderIndex(shader);
    forall j | 0 <= j < k ensures rs[j].Ok? {
      assert ShaderIndex(ShaderTypeAt(j)) == j;
    }
    CollectFirstError(rs, k);
  }

  /** Two documents that agree on the presence of both tables and on every
      declared key load alike: undeclared keys and undeclared top-level tables
      have no effect. */
  lemma LoadReadsOnlyDeclaredKeys(configFile: string, fs: FileSystem, projectRoot: string, a: Root, b: Root)
    requires HasTable(a, WINDOW_TABLE_NAME) == HasTable(b, WINDOW_TABLE_NAME)
    requires HasTable(a, SHADER_TABLE_NAME) == HasTable(b, SHADER_TABLE_NAME)
    requires forall o :: Find(a, WINDOW_TABLE_NAME, WindowOptionName(o)) == Find(b, WINDOW_TABLE_NAME, WindowOptionName(o))
    requires forall t :: Find(a, SHADER_TABLE_NAME, ShaderTypeName(t)) == Find(b, SHADER_TABLE_NAME, ShaderTypeName(t))
    ensures LoadSpec(configFile, fs, projectRoot, Parsed(a)) == LoadSpec(configFile, fs, projectRoot, Parsed(b))
  {
    if HasTable(a, WINDOW_TABLE_NAME) && HasTable(a, SHADER_TABLE_NAME) {
      var wa, wb := WindowTable(a), WindowTable(b);
      forall o ensures WindowOptionValue(wa, o) == WindowOptionValue(wb, o) {
        var name := WindowOptionName(o);
        assert Find(a, WINDOW_TABLE_NAME, name) == Find(b, WINDOW_TABLE_NAME, name);
      }
      assert WindowResults(wa) == WindowResults(wb);
      var sa, sb := ShaderTable(a), ShaderTable(b);
      forall t ensures ShaderPathValue(sa, t, fs, projectRoot) == ShaderPathValue(sb, t, fs, projectRoot) {
        var name := ShaderTypeName(t);
        assert Find(a, SHADER_TABLE_NAME, name) == Find(b, SHADER_TABLE_NAME, name);
      }
      assert ShaderResults(sa, fs, projectRoot) == ShaderResults(sb, fs, projectRoot);
    }
  }

  /** Adding an undeclared key to the window table does not change a load. */
  lemma LoadIgnoresExtraWindowKey(configFile: string, fs: FileSystem, projectRoot: string, root: Root, key: string, v: Value)
    requires HasTable(root, WINDOW_TABLE_NAME)
    requires key !in WINDOW_OPTIONS_STR
    ensures var extended := root[WINDOW_TABLE_NAME := Table(WindowTable(root)[key := v])];
            LoadSpec(configFile, fs, projectRoot, Parsed(extended)) == LoadSpec(configFile, fs, projectRoot, Parsed(root))
  {
    var extended := root[WINDOW_TABLE_NAME := Table(WindowTable(root)[key := v])];
    forall o ensures Find(extended, WINDOW_TABLE_NAME, WindowOptionName(o)) == Find(root, WINDOW_TABLE_NAME, WindowOptionName(o)) {
      assert WINDOW_OPTIONS_STR[WindowIndex(o)] == WindowOptionName(o);
    }
    LoadReadsOnlyDeclaredKeys(configFile, fs, projectRoot, extended, root);
  }
}
