/** The X-macro schema lists: each list pairs an enumerator with its string
    name, in declaration order. The enumerations themselves are what the
    `X(name, str) name,` expansion produces; the string tables are what the
    `X(name, str) str,` expansion produces; the counts are what the
    `X_ENUM_COUNT` expansion `0 +1 +1 ...` produces. */
module EnumList {

  datatype WindowOption = Width | Height | Fps

  datatype ShaderType = Vertex | Fragment

  datatype ErrorCode = FileNotFound | ParseError | MissingOption | InvalidValue

  const WINDOW_OPTION_LIST: seq<(WindowOption, string)> :=
    [(Width, "width"), (Height, "height"), (Fps, "fps")]

  const SHADER_TYPE_LIST: seq<(ShaderType, string)> :=
    [(Vertex, "vertex"), (Fragment, "fragment")]

  const ERROR_CODE_LIST: seq<(ErrorCode, string)> :=
    [ (FileNotFound, "FileNotFound"),
      (ParseError, "ParseError"),
      (MissingOption, "MissingOption"),
      (InvalidValue, "InvalidValue") ]

  /** `0 LIST(X_ENUM_COUNT)`: zero, plus one for every entry of the list. */
  function XEnumCount<T>(list: seq<T>): (count: nat)
    ensures count == |list|
  {
    if list == [] then 0 else XEnumCount(list[..|list| - 1]) + 1
  }

  /** The `X(name, str) str,` expansion: the string of every entry, in order. */
  function Strings<T>(list: seq<(T, string)>): (names: seq<string>)
    ensures |names| == |list|
    ensures forall i :: 0 <= i < |list| ==> names[i] == list[i].1
  {
    if list == [] then [] else Strings(list[..|list| - 1]) + [list[|list| - 1].1]
  }

  /** No two entries of the list carry the same string. */
  predicate DistinctNames<T>(list: seq<(T, string)>)
  {
    forall i, j :: 0 <= i < j < |list| ==> list[i].1 != list[j].1
  }

  /** No enumerator is listed twice. */
  predicate DistinctEnumerators<T(==)>(list: seq<(T, string)>)
  {
    forall i, j :: 0 <= i < j < |list| ==> list[i].0 != list[j].0
  }

  // `static_cast<size_t>(e)`: the position of an enumerator in its list.

  function WindowIndex(option: WindowOption): (i: nat)
    ensures i < |WINDOW_OPTION_LIST| && WINDOW_OPTION_LIST[i].0 == option
  {
    match option
    case Width => 0
    case Height => 1
    case Fps => 2
  }

  function ShaderIndex(shader: ShaderType): (i: nat)
    ensures i < |SHADER_TYPE_LIST| && SHADER_TYPE_LIST[i].0 == shader
  {
    match shader
    case Vertex => 0
    case Fragment => 1
  }

  function CodeIndex(code: ErrorCode): (i: nat)
    ensures i < |ERROR_CODE_LIST| && ERROR_CODE_LIST[i].0 == code
  {
    match code
    case FileNotFound => 0
    case ParseError => 1
    case MissingOption => 2
    case InvalidValue => 3
  }

  // The enumerator at a position of its list: the inverse of the index.

  function WindowOptionAt(i: nat): (option: WindowOption)
    requires i < |WINDOW_OPTION_LIST|
    ensures WindowIndex(option) == i
  {
    WINDOW_OPTION_LIST[i].0
  }

  function ShaderTypeAt(i: nat): (shader: ShaderType)
    requires i < |SHADER_TYPE_LIST|
    ensures ShaderIndex(shader) == i
  {
    SHADER_TYPE_LIST[i].0
  }

  function ErrorCodeAt(i: nat): (code: ErrorCode)
    requires i < |ERROR_CODE_LIST|
    ensures CodeIndex(code) == i
  {
    ERROR_CODE_LIST[i].0
  }

  // The string paired with an enumerator.

  function WindowOptionName(option: WindowOption): string
  {
    WINDOW_OPTION_LIST[WindowIndex(option)].1
  }

  function ShaderTypeName(shader: ShaderType): string
  {
    SHADER_TYPE_LIST[ShaderIndex(shader)].1
  }

  function ErrorCodeName(code: ErrorCode): string
  {
    ERROR_CODE_LIST[CodeIndex(code)].1
  }

  /** The window options, in order, with their names. */
  lemma WindowOptionNames()
    ensures [WindowOptionAt(0), WindowOptionAt(1), WindowOptionAt(2)] == [Width, Height, Fps]
    ensures WindowOptionName(Width) == "width"
    ensures WindowOptionName(Height) == "height"
    ensures WindowOptionName(Fps) == "fps"
  {
  }

  /** The shader types, in order, with their names. */
  lemma ShaderTypeNames()
    ensures [ShaderTypeAt(0), ShaderTypeAt(1)] == [Vertex, Fragment]
    ensures ShaderTypeName(Vertex) == "vertex"
    ensures ShaderTypeName(Fragment) == "fragment"
  {
  }

  /** The error codes, in order; each one's string is its own identifier. */
  lemma ErrorCodeNames()
    ensures [ErrorCodeAt(0), ErrorCodeAt(1), ErrorCodeAt(2), ErrorCodeAt(3)] ==
            [FileNotFound, ParseError, MissingOption, InvalidValue]
    ensures ErrorCodeName(FileNotFound) == "FileNotFound"
    ensures ErrorCodeName(ParseError) == "ParseError"
    ensures ErrorCodeName(MissingOption) == "MissingOption"
    ensures ErrorCodeName(InvalidValue) == "InvalidValue"
  {
  }

  /** Every count equals the number of entries of its list. */
  lemma ListCounts()
    ensures XEnumCount(WINDOW_OPTION_LIST) == 3
    ensures XEnumCount(SHADER_TYPE_LIST) == 2
    ensures XEnumCount(ERROR_CODE_LIST) == 4
  {
  }

  /** Within each list the enumerators are distinct and so are the names; with
      the index functions this makes enumerator, position and name correspond
      one to one. */
  lemma ListsAreBijections()
    ensures DistinctEnumerators(WINDOW_OPTION_LIST) && DistinctNames(WINDOW_OPTION_LIST)
    ensures DistinctEnumerators(SHADER_TYPE_LIST) && DistinctNames(SHADER_TYPE_LIST)
    ensures DistinctEnumerators(ERROR_CODE_LIST) && DistinctNames(ERROR_CODE_LIST)
    ensures forall a, b :: WindowOptionName(a) == WindowOptionName(b) <==> a == b
    ensures forall a, b :: ShaderTypeName(a) == ShaderTypeName(b) <==> a == b
    ensures forall a, b :: ErrorCodeName(a) == ErrorCodeName(b) <==> a == b
  {
  }
}
