/** The parsed settings document, taken as given: a TOML value tree, or the
    parser's diagnostics. TOML syntax and the parsing library's conversions are
    not modelled; only the shape of the tree the loader inspects. */
module Toml {
  import opened Results

  /** A TOML value. Dates and times are one kind: the loader treats them like
      any other value that is neither an integer nor a string. */
  datatype Value =
    | Int(i: int)
    | Float(f: real)
    | Str(s: string)
    | Bool(b: bool)
    | DateTime(text: string)
    | Table(entries: map<string, Value>)
    | Array(items: seq<Value>)

  /** The top level of a document is a table. */
  type Root = map<string, Value>

  /** The parser reports at least one diagnostic whenever it fails. */
  type Diagnostics = d: seq<string> | |d| > 0 witness ["syntax error"]

  /** `toml::try_parse`: the document tree, or the parser's formatted
      diagnostics. */
  datatype ParseResult = Parsed(root: Root) | Failed(errors: Diagnostics)

  /** `toml::find(root, table, key)` made total: the value at `table.key`, or
      nothing when `table` is not a table at the top level or has no `key`. */
  function Find(root: Root, table: string, key: string): Option<Value>
  {
    if table in root && root[table].Table? && key in root[table].entries
    then Some(root[table].entries[key])
    else None
  }
}
