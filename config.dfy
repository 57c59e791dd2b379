/** `Config`: two fixed-size arrays, one slot per window option and one per
    shader type, indexed by the enumerators' positions. `Load` default-builds a
    `Config` and fills the arrays slot by slot in two loops that return at the
    first failure; the getters only read. */
module Configuration {
  import opened Results
  import opened EnumList
  import opened MandelbrotErrors
  import opened Toml
  import opened Paths
  import opened ConfigSchema
  import opened ConfigSpec

  class Config {
    /** `window_config_` */
    const windowConfig: array<int>
    /** `shader_paths_` */
    const shaderPaths: array<string>

    /** The arrays have one slot per enumerator. */
    ghost predicate Valid()
    {
      windowConfig.Length == WINDOW_OPTIONS_COUNT && shaderPaths.Length == SHADER_TYPES_COUNT
    }

    /** The observable contents. */
    ghost function Values(): ConfigValues
      reads windowConfig, shaderPaths
    {
      ConfigValues(windowConfig[..], shaderPaths[..])
    }

    /** The window values are those a successful load can produce: each within
        its option's bounds. */
    ghost predicate Validated()
      reads windowConfig
    {
      Valid() && forall o :: InBounds(o, windowConfig[WindowIndex(o)])
    }

    /** `Config{}`: zero window values and empty shader paths. */
    constructor ()
      ensures Valid() && fresh(windowConfig) && fresh(shaderPaths)
      ensures windowConfig[..] == [0, 0, 0] && shaderPaths[..] == ["", ""]
    {
      windowConfig := new int[WINDOW_OPTIONS_COUNT](_ => 0);
      shaderPaths := new string[SHADER_TYPES_COUNT](_ => "");
    }

    /** `LoadWindowConfig`: looks up width, height and fps in the window table
        in that order, stores each checked value in its slot, and returns the
        first failure. */
    method LoadWindowConfig(root: Root) returns (r: Outcome<MandelbrotError>)
      requires Valid() && HasTable(root, WINDOW_TABLE_NAME)
      modifies windowConfig
      ensures r.Pass? <==> WindowValues(WindowTable(root)).Ok?
      ensures r.Pass? ==> windowConfig[..] == WindowValues(WindowTable(root)).value
      ensures r.Fail? ==> WindowValues(WindowTable(root)) == Err(r.error)
    {
      var table := root[WINDOW_TABLE_NAME].entries;
      ghost var results := WindowResults(table);
      var i := 0;
      while i < WINDOW_OPTIONS_COUNT
        invariant 0 <= i <= WINDOW_OPTIONS_COUNT
        invariant Collect(results[..i]) == Ok(windowConfig[..i])
      {
        var option := WindowOptionAt(i);
        var name := WINDOW_OPTIONS_STR[i];
        var e: MandelbrotError;
        if name !in table {
          e := MissingWindowOption(name);
        } else if !table[name].Int? {
          e := WrongType(name, "an integer");
        } else {
          var value := table[name].i;
          if value < WindowMin(option) || WindowMax(option) < value {
            e := OutOfRange(name, value, WindowMin(option), WindowMax(option));
          } else {
            CollectExtend(results, i, windowConfig[..i]);
            ghost var before := windowConfig[..];
            windowConfig[i] := value;
            assert windowConfig[..i + 1] == before[..i] + [value];
            i := i + 1;
            continue;
          }
        }
        assert results[i] == Err(e);
        CollectOk(results[..i]);
        assert forall j :: 0 <= j < i ==> results[..i][j] == results[j];
        CollectFirstError(results, i);
        assert results == results[..|results|];
        return Fail(e);
      }
      assert results[..i] == results;
      r := Pass;
    }

    /** `LoadShaderConfig`: looks up vertex and fragment in the shaders table in
        that order; each must be a string, and a non-empty one must name an
        existing file under the project root. Stores each resolved path in its
        slot and returns the first failure. */
    method LoadShaderConfig(root: Root, fs: FileSystem, projectRoot: string) returns (r: Outcome<MandelbrotError>)
      requires Valid() && HasTable(root, SHADER_TABLE_NAME)
      modifies shaderPaths
      ensures r.Pass? <==> ShaderPaths(ShaderTable(root), fs, projectRoot).Ok?
      ensures r.Pass? ==> shaderPaths[..] == ShaderPaths(ShaderTable(root), fs, projectRoot).value
      ensures r.Fail? ==> ShaderPaths(ShaderTable(root), fs, projectRoot) == Err(r.error)
    {
      var table := root[SHADER_TABLE_NAME].entries;
      ghost var results := ShaderResults(table, fs, projectRoot);
      var i := 0;
      while i < SHADER_TYPES_COUNT
        invariant 0 <= i <= SHADER_TYPES_COUNT
        invariant Collect(results[..i]) == Ok(shaderPaths[..i])
      {
        var name := SHADER_TYPES_STR[i];
        var e: MandelbrotError;
        if name !in table {
          e := MissingShaderOption(name);
        } else if !table[name].Str? {
          e := WrongType(name, "a string");
        } else {
          var path := CreateShaderPath(table[name].s, projectRoot);
          if path != "" && path !in fs {
            e := ShaderFileNotFound(path);
          } else {
            CollectExtend(results, i, shaderPaths[..i]);
            ghost var before := shaderPaths[..];
            shaderPaths[i] := path;
            assert shaderPaths[..i + 1] == before[..i] + [path];
            i := i + 1;
            continue;
          }
        }
        assert results[i] == Err(e);
        CollectOk(results[..i]);
        assert forall j :: 0 <= j < i ==> results[..i][j] == results[j];
        CollectFirstError(results, i);
        assert results == results[..|results|];
        return Fail(e);
      }
      assert results[..i] == results;
      r := Pass;
    }

    /** `Config::Load`: the config file must exist and parse; the window table
        and then the shaders table must be present; then the window section and
        then the shader section are loaded. The result is exactly `LoadSpec`. */
    static method Load(configFile: string, fs: FileSystem, projectRoot: string, doc: ParseResult)
      returns (r: Result<Config, MandelbrotError>)
      ensures r.Err? <==> LoadSpec(configFile, fs, projectRoot, doc).Err?
      ensures r.Err? ==> r.error == LoadSpec(configFile, fs, projectRoot, doc).error
      ensures r.Ok? ==> && r.value.Valid() && r.value.Validated()
                        && fresh(r.value.windowConfig) && fresh(r.value.shaderPaths)
                        && r.value.Values() == LoadSpec(configFile, fs, projectRoot, doc).value
    {
      if configFile !in fs {
        return Err(ConfigFileNotFound(configFile));
      }
      if doc.Failed? {
        return Err(ParseFailure(doc.errors[0]));
      }
      var root := doc.root;
      if !HasTable(root, WINDOW_TABLE_NAME) {
        return Err(MissingTable(WINDOW_TABLE_NAME));
      }
      if !HasTable(root, SHADER_TABLE_NAME) {
        return Err(MissingTable(SHADER_TABLE_NAME));
      }
      var config := new Config();
      var window := config.LoadWindowConfig(root);
      if window.Fail? {
        return Err(window.error);
      }
      var shaders := config.LoadShaderConfig(root, fs, projectRoot);
      if shaders.Fail? {
        return Err(shaders.error);
      }
      LoadSuccessBounds(configFile, fs, projectRoot, doc);
      return Ok(config);
    }

    /** `GetWindowValue`: the value in the option's slot; on a loaded config it
        is within the option's bounds. */
    function GetWindowValue(option: WindowOption): (value: int)
      reads windowConfig
      requires Valid()
      ensures value == windowConfig[..][WindowIndex(option)]
      ensures Validated() ==> InBounds(option, value)
    {
      windowConfig[WindowIndex(option)]
    }

    /** `GetShaderPath`: the path in the shader type's slot. */
    function GetShaderPath(shader: ShaderType): (path: string)
      reads shaderPaths
      requires Valid()
      ensures path == shaderPaths[..][ShaderIndex(shader)]
    {
      shaderPaths[ShaderIndex(shader)]
    }
  }
}
