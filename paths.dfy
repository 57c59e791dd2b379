/** The filesystem as the loader sees it: the set of paths that exist at the
    moment of loading, and path joining. */
module Paths {

  type FileSystem = set<string>

  /** `root / name`: the two parts with one separator between them. */
  function Join(root: string, name: string): string
  {
    root + "/" + name
  }
}
