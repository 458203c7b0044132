/** `writePackageJson`: the in-memory rewrite of `package.json` driven by the prompt
    answers and by which optional files exist. `Merged` says, key by key, what every
    key the generator owns ends up holding; `WritePackageJson` performs the source's
    sequence of updates on a copy and is proved to produce `Merged`. */
module PackageJson {
  import opened Manifest
  import opened Strings

  // ---------------------------------------------------------------------------
  // Extensions, glob and `--ext` flags
  // ---------------------------------------------------------------------------

  /** Every extension the generator knows, in the order it lists them. */
  const AllExts: seq<string> := ["js", "jsx", "ts", "tsx"]

  /** The linted extensions: "js", then "jsx" with JSX, "ts" with TypeScript, and
      "tsx" with both, in that order. */
  function Exts(features: seq<Feature>): (exts: seq<string>)
    ensures |exts| >= 1 && exts[0] == "js"
    ensures "jsx" in exts <==> Jsx in features
    ensures "ts" in exts <==> Ts in features
    ensures "tsx" in exts <==> Jsx in features && Ts in features
  {
    var jsx := Jsx in features;
    var ts := Ts in features;
    ["js"]
    + (if jsx then ["jsx"] else [])
    + (if ts then ["ts"] else [])
    + (if ts && jsx then ["tsx"] else [])
  }

  /** The extensions always come in the order of `AllExts`, none of them twice. */
  lemma ExtsOrdered(features: seq<Feature>)
    ensures IsSubsequence(Exts(features), AllExts)
  {
    var exts := Exts(features);
    var jsx := Jsx in features;
    var ts := Ts in features;
    assert AllExts[1..] == ["jsx", "ts", "tsx"];
    assert AllExts[2..] == ["ts", "tsx"];
    assert AllExts[3..] == ["tsx"];
    if jsx && ts {
      assert exts == AllExts;
      assert IsSubsequence(["tsx"], ["tsx"]);
      assert IsSubsequence(["ts", "tsx"], ["ts", "tsx"]);
    } else if jsx {
      assert exts == ["js", "jsx"];
      assert IsSubsequence(["jsx"], ["jsx", "ts", "tsx"]);
    } else if ts {
      assert exts == ["js", "ts"];
      assert IsSubsequence(["ts"], ["ts", "tsx"]);
      assert IsSubsequence(["ts"], ["jsx", "ts", "tsx"]);
    } else {
      assert exts == ["js"];
      assert IsSubsequence(["js"], AllExts);
    }
  }

  /** The lint-staged key and lint target: `*.{js,jsx}` and the like, a brace group
      of the comma-separated extensions. */
  function Glob(exts: seq<string>): (g: string)
    ensures |g| >= 4 && g[..3] == "*.{" && g[|g| - 1] == '}'
    ensures g[3..|g| - 1] == Join(exts, ",")
  {
    "*.{" + Join(exts, ",") + "}"
  }

  /** The `--ext` argument: `.js,.jsx` and the like. */
  function ExtFlags(exts: seq<string>): string
  {
    Join(Dotted(exts), ",")
  }

  /** Extension by extension: each is dotted, and a comma separates neighbours. */
  lemma ExtFlagsCons(exts: seq<string>)
    requires |exts| > 0
    ensures |exts| == 1 ==> ExtFlags(exts) == "." + exts[0]
    ensures |exts| > 1 ==> ExtFlags(exts) == "." + exts[0] + "," + ExtFlags(exts[1..])
  {
    assert Dotted(exts)[1..] == Dotted(exts[1..]);
  }

  /** `exts.map(ext => '.' + ext)`. */
  function Dotted(exts: seq<string>): seq<string>
  {
    seq(|exts|, i requires 0 <= i < |exts| => "." + exts[i])
  }

  /** No feature selected: plain JavaScript. */
  lemma ExtsPlain()
    ensures Exts([]) == ["js"] && Glob(Exts([])) == "*.{js}" && ExtFlags(Exts([])) == ".js"
  {
    assert Dotted(["js"])[0] == "." + "js" == ".js";
    assert Dotted(["js"]) == [".js"];
  }

  /** JSX selected. */
  lemma ExtsJsx()
    ensures Exts([Jsx]) == ["js", "jsx"]
    ensures Glob(Exts([Jsx])) == "*.{js,jsx}" && ExtFlags(Exts([Jsx])) == ".js,.jsx"
  {
    var dotted := Dotted(["js", "jsx"]);
    assert dotted[0] == "." + "js" == ".js";
    assert dotted[1] == "." + "jsx" == ".jsx";
    assert dotted == [".js", ".jsx"];
    JoinPair("js", "jsx");
    JoinPair(".js", ".jsx");
  }

  /** TypeScript selected. */
  lemma ExtsTs()
    ensures Exts([Ts]) == ["js", "ts"]
    ensures Glob(Exts([Ts])) == "*.{js,ts}" && ExtFlags(Exts([Ts])) == ".js,.ts"
  {
    var dotted := Dotted(["js", "ts"]);
    assert dotted[0] == "." + "js" == ".js";
    assert dotted[1] == "." + "ts" == ".ts";
    assert dotted == [".js", ".ts"];
    JoinPair("js", "ts");
    JoinPair(".js", ".ts");
  }

  /** JSX and TypeScript selected: "tsx" joins the list. */
  lemma ExtsJsxTs()
    ensures Exts([Jsx, Ts]) == ["js", "jsx", "ts", "tsx"]
    ensures Glob(Exts([Jsx, Ts])) == "*.{js,jsx,ts,tsx}"
  {
    var exts := ["js", "jsx", "ts", "tsx"];
    assert Jsx in [Jsx, Ts] && Ts in [Jsx, Ts];
    assert Exts([Jsx, Ts]) == exts;
    JoinFour("js", "jsx", "ts", "tsx");
    assert Join(exts, ",") == "js,jsx,ts,tsx";
  }

  /** The `--ext` flags for JSX and TypeScript. */
  lemma ExtFlagsJsxTs()
    ensures ExtFlags(["js", "jsx", "ts", "tsx"]) == ".js,.jsx,.ts,.tsx"
  {
    var dotted := Dotted(["js", "jsx", "ts", "tsx"]);
    assert dotted[0] == "." + "js" == ".js";
    assert dotted[1] == "." + "jsx" == ".jsx";
    assert dotted[2] == "." + "ts" == ".ts";
    assert dotted[3] == "." + "tsx" == ".tsx";
    assert dotted == [".js", ".jsx", ".ts", ".tsx"];
    JoinFour(".js", ".jsx", ".ts", ".tsx");
  }

  lemma JoinPair(a: string, b: string)
    ensures Join([a, b], ",") == a + "," + b
  {
    assert [a, b][1..] == [b];
  }

  lemma JoinFour(a: string, b: string, c: string, d: string)
    ensures Join([a, b, c, d], ",") == a + "," + b + "," + c + "," + d
  {
    assert [a, b, c, d][1..] == [b, c, d];
    assert [b, c, d][1..] == [c, d];
    JoinPair(c, d);
  }

  // ---------------------------------------------------------------------------
  // lint-staged
  // ---------------------------------------------------------------------------

  /** The pattern `/eslint/` that marks a lint-staged command as an ESLint run. */
  const EslintPattern := "eslint"

  /** The ESLint command placed first in the lint-staged list: an ESLint run (so the
      filter below would remove it) ending in the `--ext` flags. */
  function EslintCommand(extFlags: string): (c: string)
    ensures Contains(c, EslintPattern)
    ensures |c| >= |extFlags| + 7 && c[|c| - |extFlags| - 7..] == " --ext " + extFlags
  {
    ContainsPrefix(EslintPattern, " --cache --ext " + extFlags);
    assert "eslint --cache --ext " + extFlags == EslintPattern + " --cache" + (" --ext " + extFlags);
    "eslint --cache --ext " + extFlags
  }

  /** `cmds.filter(cmd => !/eslint/.test(cmd))`. */
  function WithoutEslint(cmds: seq<string>): (r: seq<string>)
    ensures forall c :: c in r ==> !Contains(c, EslintPattern)
    ensures forall c :: c in cmds && !Contains(c, EslintPattern) ==> c in r
    ensures IsSubsequence(r, cmds)
    decreases |cmds|
  {
    if cmds == [] then []
    else if Contains(cmds[0], EslintPattern) then
      var r := WithoutEslint(cmds[1..]);
      assert r != [] ==> r[0] in r && r[0] != cmds[0];
      r
    else
      var r := [cmds[0]] + WithoutEslint(cmds[1..]);
      assert r[1..] == WithoutEslint(cmds[1..]);
      r
  }

  /** The filter works element by element: it distributes over concatenation. */
  lemma {:induction false} WithoutEslintAppend(a: seq<string>, b: seq<string>)
    ensures WithoutEslint(a + b) == WithoutEslint(a) + WithoutEslint(b)
  {
    if a == [] {
      assert a + b == b;
    } else {
      assert (a + b)[0] == a[0];
      assert (a + b)[1..] == a[1..] + b;
      WithoutEslintAppend(a[1..], b);
      if Contains(a[0], EslintPattern) {
        assert WithoutEslint(a + b) == WithoutEslint(a[1..] + b);
      } else {
        assert WithoutEslint(a + b) == [a[0]] + WithoutEslint(a[1..] + b);
      }
    }
  }

  /** A list without ESLint commands passes the filter unchanged. */
  lemma {:induction false} WithoutEslintKeeps(cmds: seq<string>)
    requires forall c :: c in cmds ==> !Contains(c, EslintPattern)
    ensures WithoutEslint(cmds) == cmds
  {
    if cmds != [] {
      assert cmds[0] in cmds;
      assert forall c :: c in cmds[1..] ==> c in cmds;
      WithoutEslintKeeps(cmds[1..]);
      assert cmds == [cmds[0]] + cmds[1..];
    }
  }

  /** Lines 124-131: drop every ESLint command, then put one ESLint command first. */
  function RewriteLintCommands(previous: seq<string>, extFlags: string): (r: seq<string>)
    ensures |r| >= 1 && r[0] == EslintCommand(extFlags) && Contains(r[0], EslintPattern)
    ensures forall i :: 1 <= i < |r| ==> !Contains(r[i], EslintPattern)
    ensures r[1..] == WithoutEslint(previous)
    ensures IsSubsequence(r[1..], previous)
    ensures forall c :: c in previous && !Contains(c, EslintPattern) ==> c in r
  {
    var r := [EslintCommand(extFlags)] + WithoutEslint(previous);
    assert r[1..] == WithoutEslint(previous);
    assert forall i :: 1 <= i < |r| ==> r[i] in r[1..];
    r
  }

  /** Rewriting an already rewritten list changes nothing: no ESLint entries pile up. */
  lemma RewriteLintCommandsIdempotent(previous: seq<string>, extFlags: string)
    ensures RewriteLintCommands(RewriteLintCommands(previous, extFlags), extFlags)
         == RewriteLintCommands(previous, extFlags)
  {
    var once := RewriteLintCommands(previous, extFlags);
    var kept := WithoutEslint(previous);
    assert once == [EslintCommand(extFlags)] + kept;
    WithoutEslintAppend([EslintCommand(extFlags)], kept);
    assert WithoutEslint([EslintCommand(extFlags)]) == [];
    WithoutEslintKeeps(kept);
  }

  // ---------------------------------------------------------------------------
  // Scripts and hooks
  // ---------------------------------------------------------------------------

  /** The JSON configuration files `pretty` formats when they exist, in this order. */
  const JsonConfigFiles: seq<string> := ["lerna.json", ".babelrc.json", "tsconfig.json"]

  /** `files.filter(f => this.fs.exists(f))`, with the existing files given as a set. */
  function ExistingFiles(files: seq<string>, existing: set<string>): (r: seq<string>)
    ensures IsSubsequence(r, files)
    ensures forall f :: f in r <==> f in files && f in existing
    decreases |files|
  {
    if files == [] then []
    else if files[0] in existing then
      var r := [files[0]] + ExistingFiles(files[1..], existing);
      assert r[1..] == ExistingFiles(files[1..], existing);
      assert forall f :: f in files <==> f == files[0] || f in files[1..];
      r
    else
      var r := ExistingFiles(files[1..], existing);
      assert r != [] ==> r[0] in r && r[0] != files[0];
      assert forall f :: f in files <==> f == files[0] || f in files[1..];
      r
  }

  /** `extraJson`: the JSON configuration files of the project, in the fixed order. */
  function ExtraJson(existing: set<string>): seq<string>
  {
    ExistingFiles(JsonConfigFiles, existing)
  }

  /** The command the pre-commit hook runs after lint-staged. */
  function LicenseCheck(useWorkspaces: bool): string
  {
    if useWorkspaces then "yarn workspaces run license-validator" else "license-validator"
  }

  /** `husky.hooks['pre-commit']`: the two commands joined by ` && `, so the hook
      runs lint-staged and, when that succeeds, the licence check. */
  function PreCommitHook(useWorkspaces: bool): (h: string)
    ensures h == "lint-staged" + " && " + LicenseCheck(useWorkspaces)
  {
    JoinCons("lint-staged", [LicenseCheck(useWorkspaces)], " && ");
    Join(["lint-staged", LicenseCheck(useWorkspaces)], " && ")
  }

  /** `scripts.lint`: an ESLint run over the quoted glob, ending in the same `--ext`
      flags as the lint-staged command. */
  function LintScript(glob: string, extFlags: string): (s: string)
    ensures Contains(s, EslintPattern)
    ensures |s| >= |extFlags| + 7 && s[|s| - |extFlags| - 7..] == " --ext " + extFlags
  {
    var tail := " --cache '" + glob + "' --ext " + extFlags;
    ContainsPrefix(EslintPattern, tail);
    assert "eslint --cache '" + glob + "' --ext " + extFlags == EslintPattern + tail;
    assert "eslint --cache '" + glob + "' --ext " + extFlags
        == ("eslint --cache '" + glob + "'") + (" --ext " + extFlags);
    "eslint --cache '" + glob + "' --ext " + extFlags
  }

  /** `scripts.pretty` of a Gatsby site, lines 147-149: the whole tree. The source
      joins the array `[exts, 'json', 'md']`, whose first element is itself an array
      and is turned into text by joining it with commas. */
  function GatsbyPrettyScript(exts: seq<string>): string
  {
    "prettier --write " + Join(["**/*.{" + Join([Join(exts, ","), "json", "md"], ",") + "}"], " ")
  }

  /** The Gatsby pattern lists the extensions, then json and md. */
  lemma GatsbyPrettyScriptLists(exts: seq<string>)
    requires |exts| > 0
    ensures GatsbyPrettyScript(exts) == "prettier --write " + ("**/*.{" + Join(exts + ["json", "md"], ",") + "}")
  {
    var inner := [Join(exts, ","), "json", "md"];
    assert inner == [Join(exts, ",")] + ["json", "md"];
    JoinCons(Join(exts, ","), ["json", "md"], ",");
    JoinAppend(exts, ["json", "md"], ",");
    assert Join(inner, ",") == Join(exts + ["json", "md"], ",");
    var pattern := "**/*.{" + Join(inner, ",") + "}";
    assert Join([pattern], " ") == pattern;
  }

  /** `scripts.pretty` of any other project, lines 151-154: the quoted glob and the
      JSON configuration files. */
  function ProjectPrettyScript(glob: string, extraJson: seq<string>): string
  {
    "prettier --write " + Join(["'" + glob + "'"] + extraJson, " ")
  }

  /** The quoted glob comes first, then each configuration file after one space. */
  lemma ProjectPrettyScriptLists(glob: string, extraJson: seq<string>)
    ensures extraJson == [] ==> ProjectPrettyScript(glob, extraJson) == "prettier --write " + ("'" + glob + "'")
    ensures extraJson != [] ==>
      ProjectPrettyScript(glob, extraJson) == "prettier --write " + ("'" + glob + "'") + " " + Join(extraJson, " ")
  {
    JoinCons("'" + glob + "'", extraJson, " ");
  }

  /** `scripts.pretty`, lines 146-155. */
  function PrettyScript(pkg: Manifest, exts: seq<string>, existing: set<string>): string
  {
    if HasGatsby(pkg) then GatsbyPrettyScript(exts)
    else ProjectPrettyScript(Glob(exts), ExtraJson(existing))
  }

  const WorkspacesBootstrap := "lerna bootstrap --use-workspaces"
  const WorkspacesLicense := "yarn workspaces run license-validator -i"
  const RedwerksAuthor := "Redwerks (https://redwerks.org/)"

  // ---------------------------------------------------------------------------
  // The whole rewrite, key by key
  // ---------------------------------------------------------------------------

  /** The engine the marker is written under: the client that is NOT to be used. */
  function MarkedEngine(npmClient: string): string
  {
    if npmClient == "yarn" then "npm" else "yarn"
  }

  /** The engine marker of lines 98-103: yarn projects tell npm to stay away,
      every other client tells yarn. */
  function WithEngineMarker(engines: map<string, string>, npmClient: string): (r: map<string, string>)
    ensures r.Keys == engines.Keys + {MarkedEngine(npmClient)}
    ensures r[MarkedEngine(npmClient)] == if npmClient == "yarn" then "use yarn" else "use npm"
    ensures forall k :: k in engines && k != MarkedEngine(npmClient) ==> r[k] == engines[k]
  {
    if npmClient == "yarn" then engines["npm" := "use yarn"] else engines["yarn" := "use npm"]
  }

  /** `engines` after the rewrite (lines 97-104). */
  function EnginesAfter(engines: Option<map<string, string>>, props: Props): Option<map<string, string>>
  {
    if props.requireNpmClient then Some(WithEngineMarker(engines.GetOr(map[]), props.npmClient))
    else engines
  }

  /** `husky` after the rewrite (lines 106-113). */
  function HuskyAfter(husky: Option<Husky>, useWorkspaces: bool): Option<Husky>
  {
    var h := husky.GetOr(Husky(None, map[]));
    Some(h.(hooks := Some(h.hooks.GetOr(map[])["pre-commit" := PreCommitHook(useWorkspaces)])))
  }

  /** `lint-staged` after the rewrite (lines 124-131). */
  function LintStagedAfter(lintStaged: Option<map<string, seq<string>>>, exts: seq<string>)
    : Option<map<string, seq<string>>>
  {
    var table := lintStaged.GetOr(map[]);
    var previous := if Glob(exts) in table then table[Glob(exts)] else [];
    Some(table[Glob(exts) := RewriteLintCommands(previous, ExtFlags(exts))])
  }

  /** `scripts` after the rewrite (lines 133, 145-159). */
  function ScriptsAfter(scripts: Option<map<string, string>>, exts: seq<string>, pretty: string,
                        useWorkspaces: bool): Option<map<string, string>>
  {
    var s := scripts.GetOr(map[])["lint" := LintScript(Glob(exts), ExtFlags(exts))]["pretty" := pretty];
    Some(if useWorkspaces then s["license" := WorkspacesLicense] else s)
  }

  /** `bootstrap` after the rewrite: a top-level key, not a script (lines 135-137). */
  function BootstrapAfter(bootstrap: Option<Json>, useWorkspaces: bool): Option<Json>
  {
    if useWorkspaces then Some(JString(WorkspacesBootstrap)) else bootstrap
  }

  /** `contributors` once Redwerks becomes the author: a truthy old author goes in
      front (lines 162-164). */
  function CreditedContributors(author: Option<Json>, contributors: Option<seq<Json>>)
    : Option<seq<Json>>
  {
    if IsSet(author) then Some([author.value] + contributors.GetOr([])) else contributors
  }

  /** The rewritten manifest: the owned keys as above, everything else as it was.
      `husky`, `lint-staged` and `scripts` always exist afterwards. */
  function Merged(pkg: Manifest, props: Props, existing: set<string>): (r: Manifest)
    ensures r.husky.Some? && r.lintStaged.Some? && r.scripts.Some?
    ensures r.workspaces == pkg.workspaces && r.dependencies == pkg.dependencies && r.rest == pkg.rest
  {
    var ws := UsesWorkspaces(pkg);
    var exts := Exts(props.features);
    pkg.(engines := EnginesAfter(pkg.engines, props),
         husky := HuskyAfter(pkg.husky, ws),
         lintStaged := LintStagedAfter(pkg.lintStaged, exts),
         scripts := ScriptsAfter(pkg.scripts, exts, PrettyScript(pkg, exts, existing), ws),
         bootstrap := BootstrapAfter(pkg.bootstrap, ws),
         author := if props.redwerksAuthor then Some(JString(RedwerksAuthor)) else pkg.author,
         contributors :=
           if props.redwerksAuthor then CreditedContributors(pkg.author, pkg.contributors)
           else pkg.contributors)
  }

  // ---------------------------------------------------------------------------
  // What the rewrite promises
  // ---------------------------------------------------------------------------

  /** Lines 97-104: without `requireNpmClient` the engines are left alone; with it,
      exactly the other client's marker is added and every other engine is kept. */
  lemma MergedEngines(pkg: Manifest, props: Props, existing: set<string>)
    ensures var r := Merged(pkg, props, existing);
      && (!props.requireNpmClient ==> r.engines == pkg.engines)
      && (props.requireNpmClient ==>
            r.engines.Some?
            && r.engines.value.Keys == pkg.engines.GetOr(map[]).Keys + {MarkedEngine(props.npmClient)}
            && (props.npmClient == "yarn" ==> r.engines.value["npm"] == "use yarn")
            && (props.npmClient != "yarn" ==> r.engines.value["yarn"] == "use npm")
            && forall k :: k in pkg.engines.GetOr(map[]) && k != MarkedEngine(props.npmClient) ==>
                 r.engines.value[k] == pkg.engines.GetOr(map[])[k])
  {
  }

  /** Lines 106-113: the pre-commit hook depends only on whether the project uses
      workspaces; every other hook and every other husky setting is kept. */
  lemma MergedPreCommit(pkg: Manifest, props: Props, existing: set<string>)
    ensures var r := Merged(pkg, props, existing);
      var before := pkg.husky.GetOr(Husky(None, map[]));
      && r.husky.Some? && r.husky.value.hooks.Some?
      && r.husky.value.other == before.other
      && r.husky.value.hooks.value.Keys == before.hooks.GetOr(map[]).Keys + {"pre-commit"}
      && r.husky.value.hooks.value["pre-commit"] == PreCommitHook(UsesWorkspaces(pkg))
      && forall k :: k in before.hooks.GetOr(map[]) && k != "pre-commit" ==>
           r.husky.value.hooks.value[k] == before.hooks.GetOr(map[])[k]
  {
  }

  /** Lines 124-131: under the glob key, one ESLint command comes first and the old
      list's other commands follow in their order; other globs are untouched. */
  lemma MergedLintStaged(pkg: Manifest, props: Props, existing: set<string>)
    ensures var r := Merged(pkg, props, existing);
      var exts := Exts(props.features);
      var glob := Glob(exts);
      var before := pkg.lintStaged.GetOr(map[]);
      var previous := if glob in before then before[glob] else [];
      && r.lintStaged.Some?
      && r.lintStaged.value.Keys == before.Keys + {glob}
      && (forall k :: k in before && k != glob ==> r.lintStaged.value[k] == before[k])
      && r.lintStaged.value[glob] == [EslintCommand(ExtFlags(exts))] + WithoutEslint(previous)
      && (forall i :: 1 <= i < |r.lintStaged.value[glob]| ==>
            !Contains(r.lintStaged.value[glob][i], EslintPattern))
      && IsSubsequence(r.lintStaged.value[glob][1..], previous)
  {
    var exts := Exts(props.features);
    var before := pkg.lintStaged.GetOr(map[]);
    var previous := if Glob(exts) in before then before[Glob(exts)] else [];
    var list := RewriteLintCommands(previous, ExtFlags(exts));
    assert list[1..] == WithoutEslint(previous);
  }

  /** Lines 133-159: `lint` is always the ESLint run over the glob, `pretty` follows
      the Gatsby test, `license` is set only in a workspaces project, and every other
      script is kept. */
  lemma MergedScripts(pkg: Manifest, props: Props, existing: set<string>)
    ensures var r := Merged(pkg, props, existing);
      var exts := Exts(props.features);
      var before := pkg.scripts.GetOr(map[]);
      && r.scripts.Some?
      && r.scripts.value["lint"]
         == "eslint --cache '" + Glob(exts) + "' --ext " + ExtFlags(exts)
      && (HasGatsby(pkg) ==>
            r.scripts.value["pretty"] == "prettier --write " + ("**/*.{" + Join(exts + ["json", "md"], ",") + "}"))
      && (!HasGatsby(pkg) && ExtraJson(existing) == [] ==>
            r.scripts.value["pretty"] == "prettier --write " + ("'" + Glob(exts) + "'"))
      && (!HasGatsby(pkg) && ExtraJson(existing) != [] ==>
            r.scripts.value["pretty"]
            == "prettier --write " + ("'" + Glob(exts) + "'") + " " + Join(ExtraJson(existing), " "))
      && (UsesWorkspaces(pkg) ==> r.scripts.value["license"] == WorkspacesLicense)
      && (!UsesWorkspaces(pkg) ==>
            ("license" in r.scripts.value <==> "license" in before)
            && ("license" in before ==> r.scripts.value["license"] == before["license"]))
      && r.scripts.value.Keys
         == before.Keys + {"lint", "pretty"} + (if UsesWorkspaces(pkg) then {"license"} else {})
      && forall k :: k in before && k !in {"lint", "pretty", "license"} ==> r.scripts.value[k] == before[k]
  {
    var exts := Exts(props.features);
    if HasGatsby(pkg) {
      GatsbyPrettyScriptLists(exts);
    } else {
      ProjectPrettyScriptLists(Glob(exts), ExtraJson(existing));
    }
  }

  /** Lines 135-137: the bootstrap command goes to the top-level `bootstrap` key,
      and only in a workspaces project. */
  lemma MergedBootstrap(pkg: Manifest, props: Props, existing: set<string>)
    ensures var r := Merged(pkg, props, existing);
      && (UsesWorkspaces(pkg) ==> r.bootstrap == Some(JString("lerna bootstrap --use-workspaces")))
      && (!UsesWorkspaces(pkg) ==> r.bootstrap == pkg.bootstrap)
      && r.scripts.Some?
      && ("bootstrap" in r.scripts.value <==> "bootstrap" in pkg.scripts.GetOr(map[]))
  {
  }

  /** Lines 161-167: Redwerks becomes the author and a truthy old author becomes the
      first contributor; without the answer both keys are left alone. */
  lemma MergedAuthor(pkg: Manifest, props: Props, existing: set<string>)
    ensures var r := Merged(pkg, props, existing);
      && (props.redwerksAuthor ==> r.author == Some(JString("Redwerks (https://redwerks.org/)")))
      && (props.redwerksAuthor && IsSet(pkg.author) ==>
            r.contributors == Some([pkg.author.value] + pkg.contributors.GetOr([])))
      && (props.redwerksAuthor && !IsSet(pkg.author) ==> r.contributors == pkg.contributors)
      && (!props.redwerksAuthor ==> r.author == pkg.author && r.contributors == pkg.contributors)
  {
  }

  /** The rewrite touches only the keys it owns, so a well-formed manifest stays one
      and the workspaces and Gatsby tests give the same answers afterwards. */
  lemma MergedFrame(pkg: Manifest, props: Props, existing: set<string>)
    ensures var r := Merged(pkg, props, existing);
      && (Valid(pkg) ==> Valid(r))
      && UsesWorkspaces(r) == UsesWorkspaces(pkg)
      && HasGatsby(r) == HasGatsby(pkg)
  {
  }

  /** Running the generator again changes nothing when the author prompt is not
      asked again (line 65 skips it once the author names Redwerks); answering it
      again would push Redwerks itself into the contributors. */
  lemma MergedRerun(pkg: Manifest, props: Props, existing: set<string>)
    ensures var once := Merged(pkg, props, existing);
      Merged(once, props.(redwerksAuthor := false), existing) == once
    ensures var once := Merged(pkg, props, existing);
      var twice := Merged(once, props, existing);
      && twice == once.(contributors := twice.contributors)
      && (props.redwerksAuthor ==>
            twice.contributors == Some([JString(RedwerksAuthor)] + once.contributors.GetOr([])))
  {
    var exts := Exts(props.features);
    var once := Merged(pkg, props, existing);
    EnginesAfterIdempotent(pkg.engines, props);
    HuskyAfterIdempotent(pkg.husky, UsesWorkspaces(pkg));
    LintStagedAfterIdempotent(pkg.lintStaged, exts);
    ScriptsAfterIdempotent(pkg.scripts, exts, PrettyScript(pkg, exts, existing), UsesWorkspaces(pkg));
    assert PrettyScript(once, exts, existing) == PrettyScript(pkg, exts, existing);
  }

  lemma EnginesAfterIdempotent(engines: Option<map<string, string>>, props: Props)
    ensures EnginesAfter(EnginesAfter(engines, props), props) == EnginesAfter(engines, props)
  {
    if props.requireNpmClient {
      var e := WithEngineMarker(engines.GetOr(map[]), props.npmClient);
      assert WithEngineMarker(e, props.npmClient) == e;
    }
  }

  lemma HuskyAfterIdempotent(husky: Option<Husky>, useWorkspaces: bool)
    ensures HuskyAfter(HuskyAfter(husky, useWorkspaces), useWorkspaces) == HuskyAfter(husky, useWorkspaces)
  {
    var hooks := HuskyAfter(husky, useWorkspaces).value.hooks.value;
    assert hooks["pre-commit" := PreCommitHook(useWorkspaces)] == hooks;
  }

  lemma LintStagedAfterIdempotent(lintStaged: Option<map<string, seq<string>>>, exts: seq<string>)
    ensures LintStagedAfter(LintStagedAfter(lintStaged, exts), exts) == LintStagedAfter(lintStaged, exts)
  {
    var glob := Glob(exts);
    var before := lintStaged.GetOr(map[]);
    var previous := if glob in before then before[glob] else [];
    RewriteLintCommandsIdempotent(previous, ExtFlags(exts));
    var table := LintStagedAfter(lintStaged, exts).value;
    assert table[glob] == RewriteLintCommands(previous, ExtFlags(exts));
    assert table[glob := RewriteLintCommands(table[glob], ExtFlags(exts))] == table;
  }

  lemma ScriptsAfterIdempotent(scripts: Option<map<string, string>>, exts: seq<string>, pretty: string,
                               useWorkspaces: bool)
    ensures ScriptsAfter(ScriptsAfter(scripts, exts, pretty, useWorkspaces), exts, pretty, useWorkspaces)
         == ScriptsAfter(scripts, exts, pretty, useWorkspaces)
  {
    var s := ScriptsAfter(scripts, exts, pretty, useWorkspaces).value;
    var lint := LintScript(Glob(exts), ExtFlags(exts));
    assert s["lint" := lint]["pretty" := pretty] == s;
    if useWorkspaces {
      assert s["lint" := lint]["pretty" := pretty]["license" := WorkspacesLicense] == s;
    }
  }

  // ---------------------------------------------------------------------------
  // The source's sequence of updates
  // ---------------------------------------------------------------------------

  /** Lines 86-167: copy the parsed manifest and update it step by step. The copy
      is a value, so the caller's `source` is never changed. */
  method WritePackageJson(source: Manifest, props: Props, existing: set<string>)
    returns (pkg: Manifest)
    ensures pkg == Merged(source, props, existing)
  {
    pkg := source;
    var useWorkspaces := UsesWorkspaces(pkg);
    if props.requireNpmClient {
      pkg := RequireNpmClient(pkg, props.npmClient);
    }
    pkg := SetPreCommitHook(pkg, useWorkspaces);
    var exts := Exts(props.features);
    pkg := LintStaged(pkg, exts);
    pkg := SetScripts(pkg, exts, useWorkspaces, existing);
    if props.redwerksAuthor {
      pkg := CreditRedwerks(pkg);
    }
  }

  /** Lines 98-103. */
  method RequireNpmClient(pkg: Manifest, npmClient: string) returns (r: Manifest)
    ensures r == pkg.(engines := Some(WithEngineMarker(pkg.engines.GetOr(map[]), npmClient)))
  {
    var engines := pkg.engines.GetOr(map[]);
    if npmClient == "yarn" {
      engines := engines["npm" := "use yarn"];
    } else {
      engines := engines["yarn" := "use npm"];
    }
    r := pkg.(engines := Some(engines));
  }

  /** Lines 106-113. */
  method SetPreCommitHook(pkg: Manifest, useWorkspaces: bool) returns (r: Manifest)
    ensures r == pkg.(husky := HuskyAfter(pkg.husky, useWorkspaces))
  {
    var husky := pkg.husky.GetOr(Husky(None, map[]));
    var hooks := husky.hooks.GetOr(map[]);
    hooks := hooks["pre-commit" := PreCommitHook(useWorkspaces)];
    r := pkg.(husky := Some(husky.(hooks := Some(hooks))));
  }

  /** Lines 121-131: filter the glob's list, then `unshift` the ESLint command. */
  method LintStaged(pkg: Manifest, exts: seq<string>) returns (r: Manifest)
    ensures r == pkg.(lintStaged := LintStagedAfter(pkg.lintStaged, exts))
  {
    var glob := Glob(exts);
    var extFlags := ExtFlags(exts);
    var lintStaged := pkg.lintStaged.GetOr(map[]);
    var commands := if glob in lintStaged then lintStaged[glob] else [];
    commands := WithoutEslint(commands);
    commands := [EslintCommand(extFlags)] + commands;
    r := pkg.(lintStaged := Some(lintStaged[glob := commands]));
  }

  /** Lines 133-159: the scripts, and the top-level `bootstrap` of a workspaces project. */
  method SetScripts(pkg: Manifest, exts: seq<string>, useWorkspaces: bool, existing: set<string>)
    returns (r: Manifest)
    ensures r == pkg.(scripts := ScriptsAfter(pkg.scripts, exts, PrettyScript(pkg, exts, existing), useWorkspaces),
                      bootstrap := BootstrapAfter(pkg.bootstrap, useWorkspaces))
  {
    var glob := Glob(exts);
    var extFlags := ExtFlags(exts);
    var scripts := pkg.scripts.GetOr(map[]);
    r := pkg;
    if useWorkspaces {
      r := r.(bootstrap := Some(JString(WorkspacesBootstrap)));
    }
    var extraJson := ExtraJson(existing);
    scripts := scripts["lint" := LintScript(glob, extFlags)];
    if HasGatsby(r) {
      scripts := scripts["pretty" := GatsbyPrettyScript(exts)];
    } else {
      scripts := scripts["pretty" := ProjectPrettyScript(glob, extraJson)];
    }
    if useWorkspaces {
      scripts := scripts["license" := WorkspacesLicense];
    }
    r := r.(scripts := Some(scripts));
  }

  /** Lines 162-166. */
  method CreditRedwerks(pkg: Manifest) returns (r: Manifest)
    ensures r == pkg.(author := Some(JString(RedwerksAuthor)),
                      contributors := CreditedContributors(pkg.author, pkg.contributors))
  {
    r := pkg;
    if IsSet(r.author) {
      r := r.(contributors := Some([r.author.value] + r.contributors.GetOr([])));
    }
    r := r.(author := Some(JString(RedwerksAuthor)));
  }
}
