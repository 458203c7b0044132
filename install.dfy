/** `install`: the development dependencies the generator asks the package manager
    to add, and which package manager it asks. */
module Install {
  import opened Manifest
  import PackageJson

  /** Lines 211-214: Prettier always; husky and lint-staged unless the project is a
      Gatsby site. */
  function DevDependencies(pkg: Manifest): (deps: seq<string>)
    ensures |deps| >= 1 && deps[0] == "prettier"
    ensures "husky" in deps <==> !HasGatsby(pkg)
    ensures "lint-staged" in deps <==> !HasGatsby(pkg)
    ensures |deps| == if HasGatsby(pkg) then 1 else 3
  {
    var deps := ["prettier"];
    if !HasGatsby(pkg) then deps + ["husky", "lint-staged"] else deps
  }

  datatype PackageManager = Yarn | Npm

  /** Lines 216-217: the answer "yarn" selects yarn, every other answer npm. */
  function PackageManagerFor(npmClient: string): (m: PackageManager)
    ensures m == Yarn <==> npmClient == "yarn"
  {
    if npmClient == "yarn" then Yarn else Npm
  }

  /** `install` reads the manifest as it was before the rewrite; the rewrite never
      changes the dependencies, so the list is the same either way. */
  lemma DevDependenciesIgnoreRewrite(pkg: Manifest, props: Props, existing: set<string>)
    ensures DevDependencies(PackageJson.Merged(pkg, props, existing)) == DevDependencies(pkg)
  {
    PackageJson.MergedFrame(pkg, props, existing);
  }
}
