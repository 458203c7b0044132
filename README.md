# generator-common-config: the package.json rewrite and the editor configuration

`@redwerks/generator-common-config` is a Yeoman generator. It adds shared
tooling to an existing Node.js project, and this project models the part that
decides what gets written:

- **`writePackageJson`** works on a copy of the parsed `package.json`:
  - it adds the engine marker that keeps the other package manager away;
  - it sets the husky pre-commit hook;
  - it rewrites the `lint-staged` list for the linted extensions;
  - it sets the `lint`, `pretty` and (in a yarn-workspaces monorepo) `license`
    scripts and the top-level `bootstrap` key;
  - if asked, it makes Redwerks the author and moves the previous author to the
    front of `contributors`.
- **`writeSettings`** builds the VS Code settings object from the indentation
  answer.
- **`writePrettier`** builds the `.prettierrc` object and the `.prettierignore`
  text, and creates each file only when it is missing.
- **`install`** picks the development dependencies and the package manager.

Modules:

- `Manifest` (`manifest.dfy`) holds the data. A manifest is a record of the
  keys the generator reads or writes, plus the other top-level keys as opaque
  JSON values. It also holds the prompt answers (`Props`), JavaScript
  truthiness, and the workspaces and Gatsby tests.
- `Strings` (`strings.dfy`) holds `Array.prototype.join`, the substring test
  that `/eslint/` performs, and "ordered subsequence".
- `PackageJson` (`package_json.dfy`) holds the rewrite. `Merged` says, key by
  key, what the rewritten manifest holds. The `Merged…` lemmas state what the
  source promises about each key. `WritePackageJson` performs the source's
  sequence of updates, one step method per block of the source, and is proved
  to produce `Merged`.
- `EditorConfig` (`editor_config.dfy`) holds the settings and Prettier objects.
- `Install` (`install.dfy`) holds the dependency list and the package-manager
  choice.
- `Scenarios` (`scenarios.dfy`) restates the expectations of `__tests__/app.js`
  as lemmas about the model.

The file system is given as a parameter, `existing: set<string>`: the names of
the files that exist. Deep-copying the manifest with
`JSON.parse(JSON.stringify(...))` is modelled by value semantics, so the input
manifest is never changed.

Three points where the code is easy to misread; the model follows the code:

- The workspaces bootstrap command is written to the top-level key `bootstrap`
  (generators/app/index.js:136), not to `scripts.bootstrap`. `MergedBootstrap`
  states that `scripts` never gains a `bootstrap` entry.
- `.prettierrc` is written whenever it is missing, Gatsby site or not
  (generators/app/index.js:189-200). The comment about Gatsby there has no code
  behind it. `WritePrettier` does not depend on the dependencies.
- In a Gatsby site, the `pretty` pattern joins the array `[exts, 'json', 'md']`,
  whose first element is itself an array. This is modelled as written.
  `GatsbyPrettyScriptLists` proves that the result is the flat list of
  extensions followed by `json` and `md`.

## Model

| member | source | states |
|---|---|---|
| PackageJson.Exts | generators/app/index.js:115-119 | "js" always comes first; "jsx" is linted iff JSX is selected, "ts" iff TypeScript is, and "tsx" iff both are |
| PackageJson.ExtsOrdered | generators/app/index.js:117-119 | the extensions always follow the fixed order js, jsx, ts, tsx, with no repeats |
| PackageJson.ExtsPlain | __tests__/app.js:70-76 | with no feature, the extensions are [js], the glob is `*.{js}` and the `--ext` flags are `.js` |
| PackageJson.ExtsJsx | __tests__/app.js:151-156 | with JSX, the glob is `*.{js,jsx}` and the flags are `.js,.jsx` |
| PackageJson.ExtsTs | __tests__/app.js:171-176 | with TypeScript, the glob is `*.{js,ts}` and the flags are `.js,.ts` |
| PackageJson.ExtsJsxTs | __tests__/app.js:191-196 | with both, the extensions are js, jsx, ts, tsx and the glob is `*.{js,jsx,ts,tsx}` |
| PackageJson.Glob | generators/app/index.js:121 | the glob is `*.{`, then the extensions separated by commas, then `}` |
| PackageJson.ExtFlagsCons | generators/app/index.js:122 | the flags are the extensions one by one, each with a leading dot, separated by commas |
| PackageJson.ExtFlagsJsxTs | generators/app/index.js:122 | the dotted, comma-joined flags for all four extensions are `.js,.jsx,.ts,.tsx` |
| PackageJson.EslintCommand | generators/app/index.js:129-131 | the command put first in the lint-staged list is itself an ESLint run (the filter recognises it) and ends in ` --ext ` and the flags |
| PackageJson.WithoutEslint | generators/app/index.js:126-128 | no remaining command mentions eslint; every command that does not mention it is kept; the kept commands stay in their original order |
| PackageJson.WithoutEslintAppend | generators/app/index.js:126-128 | the filter works element by element: filtering a concatenation is concatenating the filtered parts |
| PackageJson.WithoutEslintKeeps | generators/app/index.js:126-128 | a list with no ESLint command passes the filter unchanged |
| PackageJson.RewriteLintCommands | generators/app/index.js:125-131 | the list starts with exactly one ESLint command for the flags; no later entry mentions eslint; the later entries are exactly the filtered old list (`WithoutEslint`): the old non-ESLint commands in their order, repeats included |
| PackageJson.RewriteLintCommandsIdempotent | generators/app/index.js:125-131 | rewriting an already rewritten list changes nothing, so ESLint commands never pile up |
| PackageJson.ExistingFiles | generators/app/index.js:139-143 | a file is listed iff it is one of the candidates and exists; the candidates' order is kept |
| PackageJson.PreCommitHook | generators/app/index.js:108-113 | the hook is `lint-staged`, then ` && `, then the license check (the workspaces-wide one in a monorepo) |
| PackageJson.LintScript | generators/app/index.js:145 | the `lint` script is an ESLint run and ends in the same ` --ext ` flags as the lint-staged command |
| PackageJson.GatsbyPrettyScriptLists | generators/app/index.js:146-149 | the Gatsby `pretty` script formats `**/*.{…}` over the linted extensions followed by json and md |
| PackageJson.ProjectPrettyScriptLists | generators/app/index.js:150-155 | any other project formats the quoted glob, then each existing JSON config file after one space |
| PackageJson.WithEngineMarker | generators/app/index.js:98-103 | the marker key is npm for the yarn client and yarn otherwise, with the matching "use …" value; every other engine is kept |
| PackageJson.Merged | generators/app/index.js:94-167 | the rewritten manifest always has `husky`, `lint-staged` and `scripts` objects; `workspaces`, `dependencies` and every key the generator does not own keep their values |
| PackageJson.MergedEngines | generators/app/index.js:97-104 | engines are untouched unless the requirement is asked for; if it is, exactly the marker is added and the rest is kept |
| PackageJson.MergedPreCommit | generators/app/index.js:106-113 | the pre-commit hook depends only on whether workspaces are used; other hooks and other husky settings are kept |
| PackageJson.MergedLintStaged | generators/app/index.js:121-131 | the glob's list is one ESLint command followed by the old list's non-ESLint commands in order; other globs are untouched |
| PackageJson.MergedScripts | generators/app/index.js:133-159 | `lint` runs ESLint over the glob; `pretty` follows the Gatsby test and the existing JSON files; `license` is set iff workspaces are used (otherwise it is kept as it was); every other script is kept; the key set is exactly the old keys plus these |
| PackageJson.MergedBootstrap | generators/app/index.js:135-137 | a workspaces project gets the top-level `bootstrap` command; otherwise `bootstrap` keeps its value; `scripts` gains no `bootstrap` entry |
| PackageJson.MergedAuthor | generators/app/index.js:161-167 | Redwerks becomes the author; a truthy previous author becomes the first contributor ahead of the old contributors; a falsy one is dropped; without the answer both keys are kept |
| PackageJson.MergedFrame | generators/app/index.js:94-167 | a well-formed manifest stays well-formed; the workspaces and Gatsby tests give the same answer afterwards |
| PackageJson.MergedRerun | generators/app/index.js:65 | running again without the author prompt (which line 65 skips once Redwerks is the author) changes nothing; answering it again only prepends Redwerks to the contributors |
| PackageJson.WritePackageJson | generators/app/index.js:86-167 | the step-by-step updates on the copy produce exactly `Merged` of the original manifest, so every `Merged…` property holds for the result |
| PackageJson.RequireNpmClient | generators/app/index.js:98-103 | only `engines` changes; it becomes the old engines (or none) with the marker of `WithEngineMarker` |
| PackageJson.SetPreCommitHook | generators/app/index.js:106-113 | only `husky` changes; its hooks (created when missing) get the pre-commit hook, other husky settings kept |
| PackageJson.LintStaged | generators/app/index.js:121-131 | only `lint-staged` changes; the glob's list (empty when missing) is filtered and the ESLint command put in front |
| PackageJson.SetScripts | generators/app/index.js:133-159 | only `scripts` and `bootstrap` change: `lint`, `pretty` and, with workspaces, `license` and the top-level bootstrap |
| PackageJson.CreditRedwerks | generators/app/index.js:161-167 | only `author` and `contributors` change: Redwerks is the author and a truthy old author leads the contributors |
| EditorConfig.Settings | generators/app/index.js:179-184 | `insertSpaces` is set iff the indentation is not a tab; a tab is 4 wide; n spaces are n wide; auto-attach is "on" and format-on-save is on |
| EditorConfig.PrettierRc | generators/app/index.js:194-199 | single quotes and trailing commas "all" always; a tab gives useTabs and no width; 2 spaces gives neither option; n other spaces give width n and no useTabs |
| EditorConfig.SettingsAgreeWithPrettier | generators/app/index.js:179-199 | for every indentation, VS Code and Prettier (with Prettier's defaults) agree on tabs versus spaces and, for spaces, on the width |
| EditorConfig.WritePrettier | generators/app/index.js:190-205 | `.prettierrc` is written iff it is missing, with the indentation's options; `.prettierignore` is written iff it is missing, with `node_modules/` |
| Install.DevDependencies | generators/app/index.js:211-214 | prettier always comes first; husky and lint-staged are added iff the project is not a Gatsby site |
| Install.PackageManagerFor | generators/app/index.js:216-217 | yarn installs iff the client answer is "yarn"; every other answer uses npm |
| Install.DevDependenciesIgnoreRewrite | generators/app/index.js:208-214 | the list computed from the manifest before the rewrite is the same as from the rewritten one |
| Scenarios.FreshLintStaged | generators/app/index.js:124-131 | a manifest without `lint-staged` gets exactly one entry: the ESLint command under the glob |
| Scenarios.FreshEngines | generators/app/index.js:97-104 | a manifest without `engines` gets exactly the marker |
| Scenarios.BasicNpm | __tests__/app.js:35-76 | the "basic npm" run: Redwerks author, contributors [John Doe], engines {yarn: use npm}, the plain hook, lint-staged `*.{js}` → [`eslint --cache --ext .js`], other keys untouched |
| Scenarios.BasicNpmPrettier | __tests__/app.js:82-89 | both Prettier files are created, with singleQuote and trailingComma "all", whatever the indentation |
| Scenarios.Yarn | __tests__/app.js:92-107 | the "yarn" run gives engines {npm: use yarn} |
| Scenarios.YarnWorkspaces | __tests__/app.js:110-137 | the workspaces run gives engines {npm: use yarn}, the workspaces hook and the top-level bootstrap |
| Scenarios.LintStagedJsx | __tests__/app.js:140-157 | the "jsx" run gives `*.{js,jsx}` → [`eslint --cache --ext .js,.jsx`] |
| Scenarios.LintStagedTs | __tests__/app.js:160-177 | the "typescript" run gives `*.{js,ts}` → [`eslint --cache --ext .js,.ts`] |
| Scenarios.LintStagedJsxTs | __tests__/app.js:180-197 | the "jsx and typescript" run gives `*.{js,jsx,ts,tsx}` → [`eslint --cache --ext .js,.jsx,.ts,.tsx`] |

## Left out

- Prompting (generators/app/index.js:10-78). This covers the greeting, the
  prompts and `process.exit` on a missing manifest. It is interactive I/O; the
  answers are the `Props` parameter.
  - Both npm-client choices carry the value 'npm' (lines 28-29), so the prompt
    can never answer "yarn". The model takes the client as any string.
  - The indentation prompt's default copies the npm-client expression
    (line 42), so an unanswered prompt yields the string 'yarn' or 'npm'
    rather than 2 or a tab. `Indent` is a tab or a number of spaces; a string
    answer is not representable.
  - The `/Redwerks/i` test (line 65) only decides whether the author prompt is
    asked. It appears only as the reason `redwerksAuthor` can be false.
- Writing and sorting the files (lines 169-172, 179, 194, 204). This covers
  `fs.writeFileSync`, `sortPackageJson`, `JSON.stringify` formatting and
  `extendJSON`'s merge into an existing settings file. These are file I/O and
  formatting; the model gives the objects that would be written.
- The `yarnInstall` and `npmInstall` calls (lines 216-217). These run external
  processes; only the dependency list and the package-manager choice are
  modelled.
- Type errors of the JavaScript source on malformed input. The model types
  these keys as the source expects them, so none of these inputs can be
  written down:
  - The glob's own `lint-staged` entry, when truthy and not an array, makes
    `.filter` throw a TypeError (lines 126-128).
  - The class body is strict-mode code, so a truthy `engines`, `husky`,
    `husky.hooks` or `scripts` that is a string, number or boolean makes the
    property assignment throw a TypeError (lines 100, 102, 107, 108 and 145).
  - A `contributors` that is not iterable makes the spread on line 163 throw.
    A string `contributors` is spread into its characters.
- PackageJson.MergedLintStaged: every `lint-staged` entry is typed as a list of strings
  (`Manifest.lintStaged`). lint-staged also accepts a single command string,
  for example `"*.md": "prettier --write"`. The source leaves such entries
  under other globs untouched, but the model cannot represent them, so "other
  globs are untouched" is proved for list entries only.
- Numbers are integers; JSON floating-point numbers are not modelled. They
  matter only for truthiness of `workspaces`, `author` and `gatsby`.
- PackageJson.PreCommitHook: states the hook as `"lint-staged" + " && " +
  LicenseCheck(...)`, not as the full string literal. The literal is that
  concatenation of the two constants.
- Scenarios.BasicNpm, Scenarios.Yarn, Scenarios.YarnWorkspaces,
  Scenarios.LintStagedJsx, Scenarios.LintStagedTs, Scenarios.LintStagedJsxTs:
  the runs are given the indentation answer 2 spaces, since the tests leave it
  unanswered. The rewritten `package.json` does not depend on it. The author
  answer is yes in every run: "basic npm" answers it, and the other runs leave
  the prompt at its default, which is yes (line 70). The scenarios for those
  runs state only what the tests check, not the author change.
