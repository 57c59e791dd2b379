/** The static members of `Config` that describe the document: option counts
    and names (expanded from the X-macro lists), the two table names and the
    inclusive bounds of the window options. */
module ConfigSchema {
  import opened EnumList

  const WINDOW_OPTIONS_COUNT: nat := XEnumCount(WINDOW_OPTION_LIST)
  const SHADER_TYPES_COUNT: nat := XEnumCount(SHADER_TYPE_LIST)

  const WINDOW_OPTIONS_STR: seq<string> := Strings(WINDOW_OPTION_LIST)
  const SHADER_TYPES_STR: seq<string> := Strings(SHADER_TYPE_LIST)

  const WINDOW_TABLE_NAME: string := "window"
  const SHADER_TABLE_NAME: string := "shaders"

  const WINDOW_SIZE_MIN: int := 64
  const WINDOW_SIZE_MAX: int := 16384
  const WINDOW_FPS_MIN: int := 1
  const WINDOW_FPS_MAX: int := 1000

  /** Width and height are sizes; fps has its own range. */
  function WindowMin(option: WindowOption): int
  {
    if option == Fps then WINDOW_FPS_MIN else WINDOW_SIZE_MIN
  }

  function WindowMax(option: WindowOption): int
  {
    if option == Fps then WINDOW_FPS_MAX else WINDOW_SIZE_MAX
  }

  predicate InBounds(option: WindowOption, value: int)
  {
    WindowMin(option) <= value <= WindowMax(option)
  }

  /** The counts and name tables have one entry per list entry, in list order,
      and every enumerator's index is below its count. */
  lemma SchemaTables(option: WindowOption, shader: ShaderType)
    ensures WINDOW_OPTIONS_COUNT == 3 && SHADER_TYPES_COUNT == 2
    ensures WINDOW_OPTIONS_STR == ["width", "height", "fps"]
    ensures SHADER_TYPES_STR == ["vertex", "fragment"]
    ensures WindowIndex(option) < WINDOW_OPTIONS_COUNT
    ensures WINDOW_OPTIONS_STR[WindowIndex(option)] == WindowOptionName(option)
    ensures ShaderIndex(shader) < SHADER_TYPES_COUNT
    ensures SHADER_TYPES_STR[ShaderIndex(shader)] == ShaderTypeName(shader)
  {
  }

  /** Width and height lie in [64, 16384], fps in [1, 1000]. */
  lemma WindowBounds(option: WindowOption, value: int)
    ensures option in {Width, Height} ==> (InBounds(option, value) <==> 64 <= value <= 16384)
    ensures option == Fps ==> (InBounds(option, value) <==> 1 <= value <= 1000)
  {
  }
}
