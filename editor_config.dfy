/** `writeSettings` and `writePrettier`: the editor and formatter configuration the
    generator derives from the indentation answer. */
module EditorConfig {
  import opened Manifest

  /** The VS Code settings merged into `.vscode/settings.json`: `editor.insertSpaces`,
      `editor.tabSize`, `debug.node.autoAttach` and `editor.formatOnSave`. */
  datatype EditorSettings = EditorSettings(
    insertSpaces: bool,
    tabSize: nat,
    autoAttach: string,
    formatOnSave: bool)

  /** Lines 179-184. A tab is shown four columns wide; spaces are as wide as the answer. */
  function Settings(indent: Indent): (s: EditorSettings)
    ensures s.insertSpaces <==> indent != Tab
    ensures indent == Tab ==> s.tabSize == 4
    ensures indent.Spaces? ==> s.tabSize == indent.width
    ensures s.autoAttach == "on" && s.formatOnSave
  {
    EditorSettings(
      indent != Tab,
      if indent == Tab then 4 else indent.width,
      "on",
      true)
  }

  /** The `.prettierrc` object. A missing option (`undefined` in the source, which
      `JSON.stringify` drops) is `None`. */
  datatype PrettierOptions = PrettierOptions(
    tabWidth: Option<nat>,
    useTabs: Option<bool>,
    singleQuote: bool,
    trailingComma: string)

  /** Lines 194-199: Prettier's defaults (width 2, spaces) are left implicit. */
  function PrettierRc(indent: Indent): (p: PrettierOptions)
    ensures p.singleQuote && p.trailingComma == "all"
    ensures indent == Tab ==> p.tabWidth == None && p.useTabs == Some(true)
    ensures indent == Spaces(2) ==> p.tabWidth == None && p.useTabs == None
    ensures indent.Spaces? && indent.width != 2 ==> p.tabWidth == Some(indent.width) && p.useTabs == None
  {
    PrettierOptions(
      if indent == Tab || indent == Spaces(2) then None else Some(indent.width),
      if indent == Tab then Some(true) else None,
      true,
      "all")
  }

  /** The width Prettier uses for a configuration: its own default when none is given. */
  function PrettierTabWidth(p: PrettierOptions): nat
  {
    p.tabWidth.GetOr(2)
  }

  /** Whether Prettier indents with tabs: its own default is spaces. */
  function PrettierUsesTabs(p: PrettierOptions): bool
  {
    p.useTabs.GetOr(false)
  }

  /** The editor and the formatter agree for every indentation: both indent with tabs
      or both with spaces, and with spaces they use the same width. */
  lemma SettingsAgreeWithPrettier(indent: Indent)
    ensures Settings(indent).insertSpaces == !PrettierUsesTabs(PrettierRc(indent))
    ensures indent != Tab ==> Settings(indent).tabSize == PrettierTabWidth(PrettierRc(indent))
  {
  }

  /** The files `writePrettier` creates; `None` where it leaves the file alone. */
  datatype PrettierFiles = PrettierFiles(
    prettierrc: Option<PrettierOptions>,
    prettierignore: Option<string>)

  /** Lines 187-206: each file is created only when it does not exist yet. Whether the
      project is a Gatsby site plays no part. */
  function WritePrettier(indent: Indent, existing: set<string>): (w: PrettierFiles)
    ensures w.prettierrc.Some? <==> ".prettierrc" !in existing
    ensures w.prettierrc.Some? ==> w.prettierrc.value == PrettierRc(indent)
    ensures w.prettierignore.Some? <==> ".prettierignore" !in existing
    ensures w.prettierignore.Some? ==> w.prettierignore.value == "node_modules/\n"
  {
    PrettierFiles(
      if ".prettierrc" !in existing then Some(PrettierRc(indent)) else None,
      if ".prettierignore" !in existing then Some("node_modules/\n") else None)
  }
}
