# Mandelbrot set: configuration loader

A Dafny model of the configuration loader of the Mandelbrot-set renderer. The
loader is `Config::Load`: it turns a parsed TOML settings document into a
validated `Config`, or into a `MandelbrotError` carrying one of four codes. The
document has a `[window]` table with `width`, `height` and `fps`, and a
`[shaders]` table with `vertex` and `fragment`. `Load` runs these steps in
order and stops at the first failure:

1. the config file must exist (`FileNotFound`);
2. it must parse; otherwise the error is built from the first diagnostic only
   (`ParseError`);
3. `window` and then `shaders` must be top-level tables (`ParseError`
   otherwise, including for an array of tables);
4. `width`, `height` and `fps`, in that order, must each be present
   (`MissingOption`), be integers (`InvalidValue`) and lie within bounds
   (`InvalidValue`). The bounds are [64, 16384] for sizes and [1, 1000] for fps;
5. `vertex` and then `fragment` must each be present (`MissingOption`) and be
   strings (`InvalidValue`). An empty name disables that stage and gives the
   empty path. Any other name is joined under the project root, and that file
   must exist (`FileNotFound`).

The files:

- `enum_list.dfy` (`EnumList`): the X-macro lists as sequences of (enumerator,
  name) pairs, the enumerations they expand to, the `X_ENUM_COUNT` count,
  index and inverse-index functions, and the name tables.
- `mandelbrot_error.dfy` (`MandelbrotErrors`): `MandelbrotError` as an
  immutable datatype, with its getters and the code-string table.
- `toml.dfy` (`Toml`): the parsed document as a value tree, and the parse
  step as an input that is either a tree or a non-empty list of
  diagnostics.
- `paths.dfy` (`Paths`): the filesystem as the set of existing paths, and
  path joining as `root + "/" + name`.
- `config_schema.dfy` (`ConfigSchema`): the static constants of `Config`
  (counts, name tables, table names, bounds).
- `config_spec.dfy` (`ConfigSpec`): the static queries `HasTable` and
  `CreateShaderPath`, the check of one option, the two fail-fast sections,
  and `LoadSpec` (what a load means), with the lemmas about them.
- `config.dfy` (`Configuration`): the class `Config`. It holds two
  fixed-size arrays, `windowConfig` and `shaderPaths`. `LoadWindowConfig` and
  `LoadShaderConfig` fill them slot by slot in indexed loops with early
  returns. `Load` builds a default `Config` and runs both. The getters are
  read-only functions. Each method is proved to compute exactly `LoadSpec`
  or its section.
- `results.dfy` (`Results`): `Result`/`Outcome` for `std::expected`, and
  `Collect`, the first-failure-wins run of a sequence of checks, with its two
  characterising lemmas.
- `text.dfy` (`Text`): `Mentions` ("the message names X") and decimal
  rendering of integers for messages.
- `scenarios.dfy` (`ConfigScenarios`): documents shaped like the repository's
  test configurations, and what loading each gives.

Inputs the model takes as parameters:

- the filesystem (`fs`, the set of existing paths);
- the parse result of the config file (`doc`);
- the project root (`projectRoot`). In the source the root is the build-time
  define `PROJECT_ROOT_PATH`, so every lemma holds for any root.

Where the sources disagree, and what this model follows:

- `src/config.cpp` is older than `src/config.hpp`. It returns string errors
  and has no table, type, range or path checks. The model follows the
  header's API (`MandelbrotError` results, bounds, `HasTable`,
  `CreateShaderPath`, `LoadWindowConfig`/`LoadShaderConfig`) and the error
  codes that `tests/test_config.cpp` asserts. It takes the loop order, the
  early returns and the first-diagnostic parse message from `config.cpp`.
- A missing or non-table `window`/`shaders` section is a `ParseError`, as
  the tests assert. There is no separate "missing section" code: the error
  code list holds exactly four codes.
- Within one shader stage the order is lookup, then type, then path
  resolution, then the existence check. Only after that does the next stage
  start.

## Model

| member | source | states |
|---|---|---|
| `EnumList.XEnumCount` | src/enum_list.hpp:25 | the `0 +1 +1 ...` expansion of a list equals its number of entries |
| `EnumList.Strings` | src/config.hpp:36-49 | the `str` expansion of a list has one name per entry, each entry's name at that entry's position |
| `EnumList.WindowIndex` | src/config.hpp:18-22 | the index of a window option is below the list length, and the list entry at that index is that option |
| `EnumList.ShaderIndex` | src/config.hpp:23-27 | the index of a shader type is below the list length, and the list entry at that index is that shader type |
| `EnumList.CodeIndex` | src/mandelbrot_error.hpp:13-17 | the index of an error code is below the list length, and the list entry at that index is that code |
| `EnumList.WindowOptionAt` | src/enum_list.hpp:4-7 | the option at a position has that position as its index (inverse of `WindowIndex`) |
| `EnumList.ShaderTypeAt` | src/enum_list.hpp:10-12 | the shader type at a position has that position as its index |
| `EnumList.ErrorCodeAt` | src/enum_list.hpp:15-21 | the error code at a position has that position as its index |
| `EnumList.WindowOptionNames` | src/enum_list.hpp:4-7 | window options are Width, Height, Fps in that order, named "width", "height", "fps" |
| `EnumList.ShaderTypeNames` | src/enum_list.hpp:10-12 | shader types are Vertex, Fragment in that order, named "vertex", "fragment" |
| `EnumList.ErrorCodeNames` | src/enum_list.hpp:15-21 | error codes are exactly FileNotFound, ParseError, MissingOption, InvalidValue in that order, each named by its identifier |
| `EnumList.ListCounts` | src/config.hpp:30-33 | the counts are 3 window options, 2 shader types, 4 error codes |
| `EnumList.ListsAreBijections` | src/enum_list.hpp:4-21 | within each list enumerators and names are distinct, and two enumerators have the same name exactly when they are equal |
| `MandelbrotErrors.MandelbrotError.GetCodeString` | src/mandelbrot_error.hpp:24-27 | the string returned is the one listed beside the code in `ERROR_CODE_LIST`; the lookup index is in bounds |
| `MandelbrotErrors.GettersReturnConstructorArguments` | src/mandelbrot_error.hpp:19-30 | `GetCode` and `GetMessage` return exactly the code and message the error was made with |
| `MandelbrotErrors.CodeIndexInBounds` | src/mandelbrot_error.hpp:37-45 | every code's index is below `ERROR_CODES_COUNT`, which is 4 and equals the size of the string table |
| `MandelbrotErrors.CodeStrings` | src/mandelbrot_error.hpp:24-27 | each code string is the code's own identifier (ParseError gives "ParseError"), and different codes have different strings |
| `ConfigSchema.SchemaTables` | src/config.hpp:29-49 | counts 3 and 2; name tables are ["width", "height", "fps"] and ["vertex", "fragment"]; every enumerator's index is in bounds and indexes its own name |
| `ConfigSchema.WindowBounds` | src/config.hpp:72-76 | width and height are in bounds exactly within [64, 16384], fps exactly within [1, 1000] |
| `ConfigSpec.CreateShaderPath` | src/config.hpp:78-80 | the path is empty exactly when the name is empty; a non-empty name is joined under the project root |
| `ConfigSpec.ErrorMessagesMention` | src/config.cpp:39-43 | every error message the loader builds names the option, table, file or diagnostic it is about |
| `ConfigSpec.OutOfRangeMessage` | src/config.hpp:73-76 | an out-of-range message names the option, the value and both bounds |
| `ConfigSpec.WindowOptionValueMeaning` | src/config.hpp:73-76 | a window option passes exactly when present, an integer and in bounds, and gives that integer; `MissingOption` exactly when absent; `InvalidValue` exactly when present but not an in-bounds integer; the message names the option |
| `ConfigSpec.ShaderPathValueMeaning` | src/config.hpp:78-90 | a shader option passes exactly when it is a string whose path is empty or exists; `MissingOption` exactly when absent; `InvalidValue` exactly when not a string; `FileNotFound` exactly when a non-empty name resolves to a missing file, naming that path |
| `ConfigSpec.WindowValuesMeaning` | src/config.cpp:33-47 | the window section succeeds exactly when every option passes, and then holds each option's value at its index |
| `ConfigSpec.ShaderPathsMeaning` | src/config.cpp:50-64 | the shader section succeeds exactly when every shader passes, and then holds each resolved path at its index |
| `ConfigSpec.LoadSucceeds` | src/config.cpp:15-67 | a load succeeds exactly when the file exists, parses, both tables are tables and every option passes; each stored value is the one found for that option's name |
| `ConfigSpec.LoadSuccessBounds` | src/config.hpp:73-80 | after a successful load width and height lie in [64, 16384] and fps in [1, 1000]; each shader path is empty or an existing file under the project root |
| `ConfigSpec.LoadMissingConfigFile` | src/config.hpp:59-60 | a config path that does not exist gives `FileNotFound` naming it, whatever the document |
| `ConfigSpec.LoadParseFailure` | src/config.cpp:19-25 | a parser failure gives `ParseError` mentioning the first diagnostic, and the result depends on no other diagnostic |
| `ConfigSpec.LoadRequiresTables` | src/config.hpp:52-53 | when `window` or `shaders` is missing or not a table, `ParseError`; `window` is checked first and the message names the failing table |
| `ConfigSpec.ArrayOfTablesIsNoTable` | src/config.hpp:85-86 | a section given as an array of tables fails `HasTable` |
| `ConfigSpec.LoadFirstWindowFailure` | src/config.cpp:33-43 | when every earlier window option passes and this one fails, the load fails with exactly this option's error, whatever later options and shaders hold |
| `ConfigSpec.LoadFirstShaderFailure` | src/config.cpp:50-60 | shaders are examined only after every window option passes; the first failing shader in order decides the error |
| `ConfigSpec.LoadReadsOnlyDeclaredKeys` | src/config.cpp:37-38 | two documents that agree on both tables' presence and on every declared key load identically |
| `ConfigSpec.LoadIgnoresExtraWindowKey` | src/config.cpp:54-55 | adding an undeclared key to the window table does not change the load |
| `Configuration.Config.constructor` | src/config.cpp:30 | a default `Config` has fresh arrays of the right sizes, zero window values and empty paths |
| `Configuration.Config.LoadWindowConfig` | src/config.hpp:89 | passes exactly when the window section does, storing its values in order; on failure returns the first option's error |
| `Configuration.Config.LoadShaderConfig` | src/config.hpp:90 | passes exactly when the shader section does, storing the resolved paths in order; on failure returns the first shader's error |
| `Configuration.Config.Load` | src/config.hpp:59-60 | fails exactly when `LoadSpec` fails, with its error; on success returns a fresh `Config` whose contents are `LoadSpec`'s and whose window values are in bounds |
| `Configuration.Config.GetWindowValue` | src/config.cpp:71-78 | returns the value in the option's slot; on a loaded config it is within the option's bounds |
| `Configuration.Config.GetShaderPath` | src/config.hpp:63-70 | returns the path in the shader type's slot; as a function it cannot change the `Config` |
| `ConfigScenarios.ValidConfigLoads` | tests/test_config.cpp:5-19 | the valid document loads to 800, 600, 60, an empty vertex path and the fragment file under the root |
| `ConfigScenarios.ValidConfigWithAdditionalSettings` | tests/test_config.cpp:20-33 | extra keys and an extra table give the same result as the valid document |
| `ConfigScenarios.WidthTooSmall` | tests/test_config.cpp:168-176 | width 20 gives `InvalidValue` whose message names width, 20, 64 and 16384 |
| `ConfigScenarios.FpsAsString` | tests/test_config.cpp:236-245 | fps given as a string gives `InvalidValue` naming fps |
| `ConfigScenarios.HeightAsFloat` | tests/test_config.cpp:202-208 | height given as a float gives `InvalidValue` |
| `ConfigScenarios.NestedWindowTable` | tests/test_config.cpp:86-94 | window options nested one table deeper give `MissingOption` naming width |
| `ConfigScenarios.WindowAsArrayOfTables` | tests/test_config.cpp:95-101 | `[[window]]` gives `ParseError` |
| `ConfigScenarios.FragmentAsInt` | tests/test_config.cpp:122-131 | a fragment option given as an integer gives `InvalidValue` |
| `ConfigScenarios.FragmentFileMissing` | tests/test_config.cpp:112-121 | a fragment file missing under the root gives `FileNotFound` naming the resolved path |
| `ConfigScenarios.WrongShaderOptions` | tests/test_config.cpp:132-139 | misnamed shader options give `MissingOption` for vertex, the first in order |
| `ConfigScenarios.WindowBoundaryValues` | tests/test_config.cpp:142-192 | each bound is accepted; one below the minimum or above the maximum gives `InvalidValue` |
| `ConfigScenarios.LoadValidConfig` | tests/test_config.cpp:9-18 | loading the valid document through `Config.Load` and the getters yields 800, 600, 60, an empty vertex path and a non-empty fragment path |

## Left out

- TOML syntax, `toml::try_parse`, `format_error` and the library's type conversions: the parse result is an input, and each diagnostic is taken as already formatted text.
- Machine-int narrowing from 64-bit TOML integers to C++ `int`: values are unbounded integers, and the range check alone decides.
- `std::filesystem` semantics such as normalisation and absolute paths: a path is a string, joining is `root + "/" + name`, and existence is membership in a set taken at load time. The gap between the existence check and the read is not modelled.
- The exact `std::format` text of the header-era messages is not in the sources: messages are fixed strings that name the option, table, path or diagnostic, and for a range error also the value and both bounds.
- `TraceLog` calls: logging only.
- `GetShaderValue`, `SHADER_OPTIONS_COUNT`, `SHADER_OPTIONS_STR` and `shader_config_` in `src/config.cpp`: the old string-valued shader API that the header replaced with `GetShaderPath` and `shader_paths_`.
- The string-error return type of `Config::Load` in `src/config.cpp`: superseded by the header's `MandelbrotError` results.
- `src/rgb.hpp`, `src/app.cpp`, `src/app.hpp`, `src/main.cpp` and `src/drawing_scope.hpp` (palette floating point, window, shaders, render loop, exit code) are not part of this model.
