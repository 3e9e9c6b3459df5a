/**
 * The parts of a sandbox (the editor's workspace) that the code editor reads.
 * A sandbox holds an ordered list of modules (files), its directories, the id
 * of its template and the npm dependencies recorded for it.
 */
module Workspace {
  import opened Wrappers

  /** Package name to version specifier, as in a `package.json` manifest. */
  type DepMap = map<string, string>

  /**
   * A file. `code` is absent for some files (binary ones among them);
   * `directoryShortid` is absent for a file in the sandbox's root.
   */
  datatype Module = Module(
    id: string,
    shortid: string,
    title: string,
    code: Option<string>,
    isBinary: bool,
    directoryShortid: Option<string>)

  datatype Directory = Directory(
    shortid: string,
    title: string,
    directoryShortid: Option<string>)

  /**
   * The sandbox's own record of its npm dependencies. It is either an
   * immutable collection offering `toJS()` or already a plain object; both
   * carry the same name-to-version entries.
   */
  datatype NpmDependencies =
    | ImmutableMap(entries: DepMap)
    | PlainObject(entries: DepMap)
  {
    /** The entries as a plain object: through `toJS()` when it exists, as they are otherwise. */
    function ToPlain(): DepMap {
      match this
      case ImmutableMap(e) => e
      case PlainObject(e) => e
    }
  }

  datatype Sandbox = Sandbox(
    modules: seq<Module>,
    directories: seq<Directory>,
    template: string,
    npmDependencies: NpmDependencies)
}
