/** Concrete documents shaped like the repository's test configurations, and
    what loading each of them gives. */
module ConfigScenarios {
  import opened Results
  import opened EnumList
  import opened Text
  import opened MandelbrotErrors
  import opened Toml
  import opened Paths
  import opened ConfigSchema
  import opened ConfigSpec
  import opened Configuration

  const CONFIG_FILE: string := "tests/configs/config.toml"
  const FRAGMENT_FILE: string := "mandel.frag"

  function Window(width: Value, height: Value, fps: Value): map<string, Value>
  {
    map["width" := width, "height" := height, "fps" := fps]
  }

  function Shaders(vertex: Value, fragment: Value): map<string, Value>
  {
    map["vertex" := vertex, "fragment" := fragment]
  }

  function Document(window: map<string, Value>, shaders: map<string, Value>): Root
  {
    map["window" := Table(window), "shaders" := Table(shaders)]
  }

  /** The valid document: 800 x 600 at 60 fps, no vertex shader, one fragment
      shader. */
  function ValidDocument(): Root
  {
    Document(Window(Int(800), Int(600), Int(60)), Shaders(Str(""), Str(FRAGMENT_FILE)))
  }

  function Files(projectRoot: string): FileSystem
  {
    {CONFIG_FILE, Join(projectRoot, FRAGMENT_FILE)}
  }

  /** Loading the valid document keeps its three window values; the vertex path
      is empty and the fragment path is the file under the project root. */
  lemma ValidConfigLoads(projectRoot: string)
    ensures LoadSpec(CONFIG_FILE, Files(projectRoot), projectRoot, Parsed(ValidDocument())) ==
            Ok(ConfigValues([800, 600, 60], ["", Join(projectRoot, FRAGMENT_FILE)]))
  {
    var fs, root := Files(projectRoot), ValidDocument();
    assert forall o :: WindowOptionValue(WindowTable(root), o).Ok?;
    assert forall t :: ShaderPathValue(ShaderTable(root), t, fs, projectRoot).Ok?;
    LoadSucceeds(CONFIG_FILE, fs, projectRoot, Parsed(root));
    var c := LoadSpec(CONFIG_FILE, fs, projectRoot, Parsed(root)).value;
    assert c.window[WindowIndex(Width)] == 800;
    assert c.window[WindowIndex(Height)] == 600;
    assert c.window[WindowIndex(Fps)] == 60;
    assert c.window == [800, 600, 60];
    assert c.shaderPaths[ShaderIndex(Vertex)] == "";
    assert c.shaderPaths[ShaderIndex(Fragment)] == Join(projectRoot, FRAGMENT_FILE);
    assert c.shaderPaths == ["", Join(projectRoot, FRAGMENT_FILE)];
  }

  /** Extra keys in both tables and an extra top-level table change nothing. */
  lemma ValidConfigWithAdditionalSettings(projectRoot: string)
    ensures var root := ValidDocument()["window" := Table(Window(Int(800), Int(600), Int(60))["title" := Str("Mandelbrot")])]
                                       ["shaders" := Table(Shaders(Str(""), Str(FRAGMENT_FILE))["geometry" := Int(3)])]
                                       ["palette" := Table(map["size" := Int(256)])];
            LoadSpec(CONFIG_FILE, Files(projectRoot), projectRoot, Parsed(root)) ==
            Ok(ConfigValues([800, 600, 60], ["", Join(projectRoot, FRAGMENT_FILE)]))
  {
    var root := ValidDocument()["window" := Table(Window(Int(800), Int(600), Int(60))["title" := Str("Mandelbrot")])]
                               ["shaders" := Table(Shaders(Str(""), Str(FRAGMENT_FILE))["geometry" := Int(3)])]
                               ["palette" := Table(map["size" := Int(256)])];
    ValidConfigLoads(projectRoot);
    LoadReadsOnlyDeclaredKeys(CONFIG_FILE, Files(projectRoot), projectRoot, root, ValidDocument());
  }

  /** Width 20 is below the minimum: `InvalidValue`, naming the option, both
      bounds and the value. */
  lemma WidthTooSmall(projectRoot: string)
    ensures var r := LoadSpec(CONFIG_FILE, Files(projectRoot), projectRoot,
                              Parsed(Document(Window(Int(20), Int(600), Int(60)), Shaders(Str(""), Str(FRAGMENT_FILE)))));
            && r.Err? && r.error.code == InvalidValue
            && Mentions(r.error.message, "width") && Mentions(r.error.message, "20")
            && Mentions(r.error.message, "64") && Mentions(r.error.message, "16384")
  {
    var root := Document(Window(Int(20), Int(600), Int(60)), Shaders(Str(""), Str(FRAGMENT_FILE)));
    LoadFirstWindowFailure(CONFIG_FILE, Files(projectRoot), projectRoot, root, Width);
    assert IntString(20) == "20" && IntString(64) == "64" && IntString(16384) == "16384";
    OutOfRangeMessage("width", 20, 64, 16384);
  }

  /** Fps given as a string: `InvalidValue`, naming the option. */
  lemma FpsAsString(projectRoot: string)
    ensures var r := LoadSpec(CONFIG_FILE, Files(projectRoot), projectRoot,
                              Parsed(Document(Window(Int(800), Int(600), Str("60")), Shaders(Str(""), Str(FRAGMENT_FILE)))));
            r.Err? && r.error.code == InvalidValue && Mentions(r.error.message, "fps")
  {
    var root := Document(Window(Int(800), Int(600), Str("60")), Shaders(Str(""), Str(FRAGMENT_FILE)));
    LoadFirstWindowFailure(CONFIG_FILE, Files(projectRoot), projectRoot, root, Fps);
    WindowOptionValueMeaning(WindowTable(root), Fps);
  }

  /** Height given as a float: `InvalidValue`. */
  lemma HeightAsFloat(projectRoot: string)
    ensures var r := LoadSpec(CONFIG_FILE, Files(projectRoot), projectRoot,
                              Parsed(Document(Window(Int(800), Float(600.5), Int(60)), Shaders(Str(""), Str(FRAGMENT_FILE)))));
            r.Err? && r.error.code == InvalidValue
  {
    var root := Document(Window(Int(800), Float(600.5), Int(60)), Shaders(Str(""), Str(FRAGMENT_FILE)));
    LoadFirstWindowFailure(CONFIG_FILE, Files(projectRoot), projectRoot, root, Height);
  }

  /** The window options one level deeper, under a sub-table: the window table
      exists but has no `width`, so `MissingOption`. */
  lemma NestedWindowTable(projectRoot: string)
    ensures var root := Document(map["size" := Table(Window(Int(800), Int(600), Int(60)))], Shaders(Str(""), Str(FRAGMENT_FILE)));
            var r := LoadSpec(CONFIG_FILE, Files(projectRoot), projectRoot, Parsed(root));
            r.Err? && r.error.code == MissingOption && Mentions(r.error.message, "width")
  {
    var root := Document(map["size" := Table(Window(Int(800), Int(600), Int(60)))], Shaders(Str(""), Str(FRAGMENT_FILE)));
    LoadFirstWindowFailure(CONFIG_FILE, Files(projectRoot), projectRoot, root, Width);
    WindowOptionValueMeaning(WindowTable(root), Width);
  }

  /** `[[window]]`, an array of tables, is not a window table: `ParseError`. */
  lemma WindowAsArrayOfTables(projectRoot: string)
    ensures var root := map["window" := Array([Table(Window(Int(800), Int(600), Int(60)))]),
                            "shaders" := Table(Shaders(Str(""), Str(FRAGMENT_FILE)))];
            var r := LoadSpec(CONFIG_FILE, Files(projectRoot), projectRoot, Parsed(root));
            r.Err? && r.error.code == ParseError
  {
  }

  /** The fragment shader given as an integer: `InvalidValue`. */
  lemma FragmentAsInt(projectRoot: string)
    ensures var r := LoadSpec(CONFIG_FILE, Files(projectRoot), projectRoot,
                              Parsed(Document(Window(Int(800), Int(600), Int(60)), Shaders(Str(""), Int(1)))));
            r.Err? && r.error.code == InvalidValue
  {
    var root := Document(Window(Int(800), Int(600), Int(60)), Shaders(Str(""), Int(1)));
    LoadSucceeds(CONFIG_FILE, Files(projectRoot), projectRoot, Parsed(root));
    assert WindowOptionValue(WindowTable(root), Width).Ok?;
    LoadFirstShaderFailure(CONFIG_FILE, Files(projectRoot), projectRoot, root, Fragment);
  }

  /** A fragment file that does not exist under the project root:
      `FileNotFound`, naming the resolved path. */
  lemma FragmentFileMissing(projectRoot: string)
    ensures var r := LoadSpec(CONFIG_FILE, {CONFIG_FILE}, projectRoot, Parsed(ValidDocument()));
            r.Err? && r.error.code == FileNotFound && Mentions(r.error.message, Join(projectRoot, FRAGMENT_FILE))
  {
    var root := ValidDocument();
    var path := Join(projectRoot, FRAGMENT_FILE);
    assert path[|path| - 1] != CONFIG_FILE[|CONFIG_FILE| - 1];
    LoadSucceeds(CONFIG_FILE, {CONFIG_FILE}, projectRoot, Parsed(root));
    assert WindowOptionValue(WindowTable(root), Width).Ok?;
    LoadFirstShaderFailure(CONFIG_FILE, {CONFIG_FILE}, projectRoot, root, Fragment);
    ShaderPathValueMeaning(ShaderTable(root), Fragment, {CONFIG_FILE}, projectRoot);
  }

  /** Misnamed shader options: the vertex option, checked first, is the one
      reported as `MissingOption`, even though the fragment one is missing too. */
  lemma WrongShaderOptions(projectRoot: string)
    ensures var root := Document(Window(Int(800), Int(600), Int(60)), map["vert" := Str(""), "frag" := Str(FRAGMENT_FILE)]);
            var r := LoadSpec(CONFIG_FILE, Files(projectRoot), projectRoot, Parsed(root));
            r.Err? && r.error == MissingShaderOption("vertex")
  {
    var root := Document(Window(Int(800), Int(600), Int(60)), map["vert" := Str(""), "frag" := Str(FRAGMENT_FILE)]);
    assert WindowOptionValue(WindowTable(root), Width).Ok?;
    assert WindowOptionValue(WindowTable(root), Height).Ok?;
    LoadFirstShaderFailure(CONFIG_FILE, Files(projectRoot), projectRoot, root, Vertex);
  }

  /** Each bound itself is accepted; one past either bound is `InvalidValue`. */
  lemma WindowBoundaryValues(option: WindowOption)
    ensures var name := WindowOptionName(option);
            && WindowOptionValue(map[name := Int(WindowMin(option))], option) == Ok(WindowMin(option))
            && WindowOptionValue(map[name := Int(WindowMax(option))], option) == Ok(WindowMax(option))
            && WindowOptionValue(map[name := Int(WindowMin(option) - 1)], option).Err?
            && WindowOptionValue(map[name := Int(WindowMin(option) - 1)], option).error.code == InvalidValue
            && WindowOptionValue(map[name := Int(WindowMax(option) + 1)], option).Err?
            && WindowOptionValue(map[name := Int(WindowMax(option) + 1)], option).error.code == InvalidValue
  {
  }

  /** Loading the valid document through `Config::Load` and reading it back
      through the getters, as the application does. */
  method LoadValidConfig(projectRoot: string) returns (width: int, height: int, fps: int, vertex: string, fragment: string)
    ensures width == 800 && height == 600 && fps == 60
    ensures vertex == "" && fragment != ""
  {
    ValidConfigLoads(projectRoot);
    var r := Config.Load(CONFIG_FILE, Files(projectRoot), projectRoot, Parsed(ValidDocument()));
    var config := r.value;
    width := config.GetWindowValue(Width);
    height := config.GetWindowValue(Height);
    fps := config.GetWindowValue(Fps);
    vertex := config.GetShaderPath(Vertex);
    fragment := config.GetShaderPath(Fragment);
  }
}
