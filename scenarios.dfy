/** The runs of `__tests__/app.js`: a fresh project whose manifest has a name, a
    version, a description, a main file, the author "John Doe" and a licence, run
    with the prompt answers each test injects. */
module Scenarios {
  import opened Manifest
  import opened PackageJson
  import EditorConfig

  /** The manifest `writePackage` creates, with or without `workspaces`. */
  function TestPackage(workspaces: Option<Json>): Manifest
  {
    Manifest(None, None, None, None, None, Some(JString("John Doe")), None, workspaces, None,
             map["name" := JString("test"), "version" := JString("1.0.0"),
                 "description" := JString("A test"), "main" := JString("index.js"),
                 "license" := JString("ISC")])
  }

  /** The answers of a test run. The author prompt is asked, because "John Doe" does
      not name Redwerks, and every run either answers it yes or leaves it at its
      default, yes. No run answers the indentation prompt; package.json does not
      depend on it. */
  function Answers(npmClient: string, requireNpmClient: bool, features: seq<Feature>): Props
  {
    Props(npmClient, requireNpmClient, Spaces(2), features, true)
  }

  /** A manifest without `lint-staged` gets exactly one entry: the ESLint command
      under the glob. */
  lemma FreshLintStaged(pkg: Manifest, props: Props, existing: set<string>)
    requires pkg.lintStaged == None
    ensures var exts := Exts(props.features);
      Merged(pkg, props, existing).lintStaged
      == Some(map[Glob(exts) := [EslintCommand(ExtFlags(exts))]])
  {
    var exts := Exts(props.features);
    assert WithoutEslint([]) == [];
    assert RewriteLintCommands([], ExtFlags(exts)) == [EslintCommand(ExtFlags(exts))];
    assert map[][Glob(exts) := [EslintCommand(ExtFlags(exts))]]
        == map[Glob(exts) := [EslintCommand(ExtFlags(exts))]];
  }

  /** A manifest without `engines` gets exactly the marker. */
  lemma FreshEngines(pkg: Manifest, props: Props, existing: set<string>)
    requires pkg.engines == None && props.requireNpmClient
    ensures Merged(pkg, props, existing).engines
         == Some(map[MarkedEngine(props.npmClient) := if props.npmClient == "yarn" then "use yarn" else "use npm"])
  {
  }

  /** "basic npm": Redwerks becomes the author with John Doe as contributor, yarn is
      told to stay away, and plain JavaScript is linted. */
  lemma BasicNpm()
    ensures var r := Merged(TestPackage(None), Answers("npm", true, []), {});
      && r.author == Some(JString("Redwerks (https://redwerks.org/)"))
      && r.contributors == Some([JString("John Doe")])
      && r.engines == Some(map["yarn" := "use npm"])
      && r.husky == Some(Husky(Some(map["pre-commit" := PreCommitHook(false)]), map[]))
      && r.lintStaged == Some(map["*.{js}" := ["eslint --cache --ext .js"]])
      && r.rest == TestPackage(None).rest
  {
    var props := Answers("npm", true, []);
    FreshEngines(TestPackage(None), props, {});
    assert MarkedEngine("npm") == "yarn";
    FreshLintStaged(TestPackage(None), props, {});
    ExtsPlain();
    assert EslintCommand(".js") == "eslint --cache --ext .js";
    assert |"John Doe"| == 8;
    assert [JString("John Doe")] + [] == [JString("John Doe")];
  }

  /** "basic npm": both Prettier files are created with the expected options,
      whatever the indentation answer. */
  lemma BasicNpmPrettier(indent: Indent)
    ensures var w := EditorConfig.WritePrettier(indent, {});
      && w.prettierrc.Some? && w.prettierrc.value.singleQuote
      && w.prettierrc.value.trailingComma == "all"
      && w.prettierignore.Some?
  {
  }

  /** "yarn": npm is told to stay away. */
  lemma Yarn()
    ensures Merged(TestPackage(None), Answers("yarn", true, []), {}).engines
         == Some(map["npm" := "use yarn"])
  {
    FreshEngines(TestPackage(None), Answers("yarn", true, []), {});
  }

  /** "yarn workspaces": the engine marker, and a hook that checks every workspace. */
  lemma YarnWorkspaces()
    ensures var r := Merged(TestPackage(Some(JArray([JString("packages/*")]))),
                            Answers("yarn", true, []), {});
      && r.engines == Some(map["npm" := "use yarn"])
      && r.husky == Some(Husky(Some(map["pre-commit" := PreCommitHook(true)]), map[]))
      && r.bootstrap == Some(JString(WorkspacesBootstrap))
  {
  }

  /** "jsx": the lint-staged entry for JavaScript and JSX. */
  lemma LintStagedJsx()
    ensures Merged(TestPackage(None), Answers("npm", false, [Jsx]), {}).lintStaged
         == Some(map["*.{js,jsx}" := [EslintCommand(".js,.jsx")]])
  {
    FreshLintStaged(TestPackage(None), Answers("npm", false, [Jsx]), {});
    ExtsJsx();
  }

  /** "typescript": the lint-staged entry for JavaScript and TypeScript. */
  lemma LintStagedTs()
    ensures Merged(TestPackage(None), Answers("npm", false, [Ts]), {}).lintStaged
         == Some(map["*.{js,ts}" := [EslintCommand(".js,.ts")]])
  {
    FreshLintStaged(TestPackage(None), Answers("npm", false, [Ts]), {});
    ExtsTs();
  }

  /** "jsx and typescript": the lint-staged entry for all four extensions. */
  lemma LintStagedJsxTs()
    ensures Merged(TestPackage(None), Answers("npm", false, [Jsx, Ts]), {}).lintStaged
         == Some(map["*.{js,jsx,ts,tsx}" := [EslintCommand(".js,.jsx,.ts,.tsx")]])
  {
    FreshLintStaged(TestPackage(None), Answers("npm", false, [Jsx, Ts]), {});
    ExtsJsxTs();
    ExtFlagsJsxTs();
  }
}
