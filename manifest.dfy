/** The data the generator works on: the parsed `package.json` (as a record of the
    fields the generator reads or writes, plus every other top-level key kept as an
    uninterpreted value), the answers to the prompts, and the indentation choice. */
module Manifest {

  datatype Option<T> = None | Some(value: T)
  {
    function GetOr(default: T): T
    {
      match this
      case Some(v) => v
      case None => default
    }
  }

  /** A JSON value the generator carries along without looking inside it. */
  datatype Json =
    | JNull
    | JBool(b: bool)
    | JNumber(n: int)
    | JString(s: string)
    | JArray(items: seq<Json>)
    | JObject(fields: map<string, Json>)

  /** JavaScript truthiness of a parsed JSON value: `null`, `false`, `0` and `""`
      are falsy, every array and object (even an empty one) is truthy. */
  predicate Truthy(v: Json)
  {
    match v
    case JNull => false
    case JBool(b) => b
    case JNumber(n) => n != 0
    case JString(s) => s != ""
    case JArray(_) => true
    case JObject(_) => true
  }

  /** Truthiness of a property access: a missing key reads as `undefined`, which is falsy. */
  predicate IsSet(v: Option<Json>)
  {
    v.Some? && Truthy(v.value)
  }

  /** The `husky` object: its `hooks` map and whatever else it holds. */
  datatype Husky = Husky(hooks: Option<map<string, string>>, other: map<string, Json>)

  /** A parsed `package.json`. Each field is the top-level key of the same name
      (`lintStaged` is `lint-staged`); `rest` holds every other top-level key. */
  datatype Manifest = Manifest(
    engines: Option<map<string, string>>,
    husky: Option<Husky>,
    lintStaged: Option<map<string, seq<string>>>,
    scripts: Option<map<string, string>>,
    bootstrap: Option<Json>,
    author: Option<Json>,
    contributors: Option<seq<Json>>,
    workspaces: Option<Json>,
    dependencies: Option<map<string, Json>>,
    rest: map<string, Json>)

  /** The top-level keys that have a field of their own in `Manifest`. */
  const FieldKeys: set<string> :=
    {"engines", "husky", "lint-staged", "scripts", "bootstrap",
     "author", "contributors", "workspaces", "dependencies"}

  /** A well-formed record: no key is held both by a field and by `rest`. */
  predicate Valid(pkg: Manifest)
  {
    pkg.rest.Keys !! FieldKeys
  }

  /** `Boolean(pkg.workspaces)`: the project is a yarn-workspaces monorepo. */
  predicate UsesWorkspaces(pkg: Manifest)
  {
    IsSet(pkg.workspaces)
  }

  /** `pkg.dependencies && pkg.dependencies.gatsby`: the project is a Gatsby site. */
  predicate HasGatsby(pkg: Manifest)
  {
    pkg.dependencies.Some? && "gatsby" in pkg.dependencies.value
    && Truthy(pkg.dependencies.value["gatsby"])
  }

  /** The language features the "Use features" prompt offers. */
  datatype Feature = Jsx | Ts

  /** The indentation answer: a tab or a number of spaces (the prompt offers 2). */
  datatype Indent = Tab | Spaces(width: nat)

  /** The prompt answers `writePackageJson`, `writeSettings`, `writePrettier` and
      `install` read. `redwerksAuthor` is false when the prompt was not asked
      because the author already names Redwerks. */
  datatype Props = Props(
    npmClient: string,
    requireNpmClient: bool,
    indent: Indent,
    features: seq<Feature>,
    redwerksAuthor: bool)
}
