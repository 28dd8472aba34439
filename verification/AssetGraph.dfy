/** The check that every asset which the release can load is in it: the page's, the stylesheets' and, over the modules
    that the entrypoint reaches, every import. */
module AssetGraph {
  import opened ReleasePaths

  datatype Site = Site(root: Path, tree: Tree)

  /** What an import in a module resolves to. */
  function Import(site: Site, m: Path, i: nat): Asset
    requires m in site.tree && i < |site.tree[m].references|
  {
    RequireAsset(site.tree, site.root, Parent(m), site.tree[m].references[i])
  }

  ghost predicate ImportsResolve(site: Site, m: Path) {
    m in site.tree && forall i :: 0 <= i < |site.tree[m].references| ==> Import(site, m, i).Found?
  }

  /** The first module imports the second. */
  ghost predicate Imports(site: Site, m: Path, d: Path) {
    m in site.tree && exists i :: 0 <= i < |site.tree[m].references| && ImportsAt(site, m, i, d)
  }

  ghost predicate ImportsAt(site: Site, m: Path, i: nat, d: Path)
    requires m in site.tree && i < |site.tree[m].references|
  {
    Import(site, m, i) == Found(d) && IsScript(d)
  }

  /** The module is reached from the entrypoint over `n` imports. */
  ghost predicate ReachedIn(site: Site, entry: Path, n: nat, m: Path) {
    if n == 0 then m == entry else exists k :: ReachedIn(site, entry, n - 1, k) && Imports(site, k, m)
  }

  ghost predicate Reached(site: Site, entry: Path, m: Path) {
    exists n: nat :: ReachedIn(site, entry, n, m)
  }

  lemma ReachedNext(site: Site, entry: Path, m: Path, i: nat, d: Path)
    requires Reached(site, entry, m) && m in site.tree && i < |site.tree[m].references| && ImportsAt(site, m, i, d)
    ensures Reached(site, entry, d)
  {
    var n: nat :| ReachedIn(site, entry, n, m);
    hide ImportsAt;
    assert ReachedIn(site, entry, (n + 1) - 1, m) && Imports(site, m, d);
    assert ReachedIn(site, entry, n + 1, d);
  }

  /** A set with the entrypoint that is closed under imports holds everything that is reached. */
  lemma {:induction false} ClosedHoldsReached(site: Site, entry: Path, closed: set<Path>, n: nat, m: Path)
    requires entry in closed && forall k, d :: k in closed && Imports(site, k, d) ==> d in closed
    requires ReachedIn(site, entry, n, m)
    ensures m in closed
  {
    hide Imports;
    if n > 0 {
      var k :| ReachedIn(site, entry, n - 1, k) && Imports(site, k, m);
      ClosedHoldsReached(site, entry, closed, n - 1, k);
    }
  }

  // ---------------------------------------------------------------------------------------------
  // The worklist
  // ---------------------------------------------------------------------------------------------

  datatype Walked = Closed(visited: set<Path>) | Broken(error: AssetError)

  /** Every import of a visited module resolves, to one that is visited or pending. */
  ghost predicate Covered(site: Site, visited: set<Path>, pending: seq<Path>) {
    forall k :: k in visited ==> CoveredUpTo(site, k, visited, pending)
  }

  ghost predicate CoveredUpTo(site: Site, k: Path, visited: set<Path>, pending: seq<Path>) {
    ImportsResolve(site, k) && forall d :: Imports(site, k, d) ==> d in visited || d in pending
  }

  ghost predicate AllReached(site: Site, entry: Path, visited: set<Path>, pending: seq<Path>) {
    && (forall m :: m in visited ==> m in site.tree && Reached(site, entry, m))
    && (forall m :: m in pending ==> m in site.tree && Reached(site, entry, m))
  }

  /** The imports of one module, pushed on the stack; or the first that does not resolve. */
  method PushImports(site: Site, entry: Path, current: Path, pending: seq<Path>) returns (r: Asset, more: seq<Path>)
    requires current in site.tree && Reached(site, entry, current)
    requires forall m :: m in pending ==> m in site.tree && Reached(site, entry, m)
    ensures r.Found? <==> ImportsResolve(site, current)
    ensures r.Refused? ==> exists i :: 0 <= i < |site.tree[current].references| && Import(site, current, i) == r
    ensures r.Found? ==> forall m :: m in more ==> m in site.tree && Reached(site, entry, m)
    ensures r.Found? ==> forall d :: d in pending || Imports(site, current, d) ==> d in more
  {
    hide Reached, RequireAsset;
    more := pending;
    var references := site.tree[current].references;
    for i := 0 to |references|
      invariant forall j :: 0 <= j < i ==> Import(site, current, j).Found?
      invariant forall m :: m in more ==> m in site.tree && Reached(site, entry, m)
      invariant forall d :: d in pending ==> d in more
      invariant forall j, d :: 0 <= j < i && ImportsAt(site, current, j, d) ==> d in more
    {
      var dependency := Import(site, current, i);
      if dependency.Refused? { return dependency, more; }
      if IsScript(dependency.path) {
        ReachedNext(site, entry, current, i, dependency.path);
        more := more + [dependency.path];
      }
    }
    return Found(current), more;
  }

  /** Visits exactly the modules that the entrypoint reaches, also when imports are cyclic, and accepts exactly when
      every import of every one of them resolves to a file below the root. */
  method WalkModules(site: Site, entry: Path) returns (r: Walked)
    requires entry in site.tree
    ensures r.Closed? <==> forall m :: Reached(site, entry, m) ==> ImportsResolve(site, m)
    ensures r.Closed? ==> forall m :: m in r.visited <==> Reached(site, entry, m)
    ensures r.Broken? ==> exists m, i ::
      Reached(site, entry, m) && m in site.tree && 0 <= i < |site.tree[m].references| && Import(site, m, i) == Refused(r.error)
  {
    hide Import, ImportsResolve, Imports;
    var pending := [entry];
    var visited: set<Path> := {};
    assert ReachedIn(site, entry, 0, entry);
    hide ReachedIn;
    while pending != []
      invariant entry in visited || entry in pending
      invariant AllReached(site, entry, visited, pending)
      invariant Covered(site, visited, pending)
      decreases site.tree.Keys - visited, |pending|
    {
      var current := pending[|pending| - 1];
      var rest := pending[..|pending| - 1];
      assert pending == rest + [current];
      if current in visited {
        pending := rest;
        continue;
      }
      var pushed, more := PushImports(site, entry, current, rest);
      if pushed.Refused? {
        return Broken(pushed.error);
      }
      VisitKeeps(site, visited, pending, current, more);
      visited := visited + {current};
      pending := more;
    }
    WalkedAll(site, entry, visited);
    return Closed(visited);
  }

  lemma VisitKeeps(site: Site, visited: set<Path>, pending: seq<Path>, m: Path, more: seq<Path>)
    requires Covered(site, visited, pending) && ImportsResolve(site, m)
    requires forall d :: d in pending && d != m ==> d in more
    requires forall d :: Imports(site, m, d) ==> d in more
    ensures Covered(site, visited + {m}, more)
  {
    hide ImportsResolve, Imports;
    forall k | k in visited + {m} ensures CoveredUpTo(site, k, visited + {m}, more) {
      if k != m { assert CoveredUpTo(site, k, visited, pending); }
    }
  }

  lemma WalkedAll(site: Site, entry: Path, visited: set<Path>)
    requires entry in visited && Covered(site, visited, [])
    ensures forall m :: Reached(site, entry, m) ==> m in visited && ImportsResolve(site, m)
  {
    hide ImportsResolve, Imports;
    forall m | Reached(site, entry, m) ensures m in visited && ImportsResolve(site, m) {
      var n: nat :| ReachedIn(site, entry, n, m);
      assert forall k :: k in visited ==> CoveredUpTo(site, k, visited, []);
      ClosedHoldsReached(site, entry, visited, n, m);
    }
  }

  // ---------------------------------------------------------------------------------------------
  // The whole check
  // ---------------------------------------------------------------------------------------------

  function Page(site: Site): Path {
    site.root + ["index.html"]
  }

  /** A stylesheet directly below the root. */
  predicate IsTopStylesheet(site: Site, p: Path) {
    p in site.tree && site.root < p && |p| == |site.root| + 1
    && |p[|p| - 1]| >= 4 && p[|p| - 1][|p[|p| - 1]| - 4..] == ".css"
  }

  /** `*.css` in the site's own directory. */
  lemma StylesheetsAreNamed(site: Site, p: Path)
    ensures IsTopStylesheet(site, p) <==> p in site.tree && exists stem: string :: p == site.root + [stem + ".css"]
  {
    if IsTopStylesheet(site, p) {
      var name := p[|p| - 1];
      assert name == name[..|name| - 4] + ".css" && p == p[..|p| - 1] + [name];
      assert p == site.root + [name[..|name| - 4] + ".css"];
    }
    if p in site.tree && exists stem: string :: p == site.root + [stem + ".css"] {
      var stem: string :| p == site.root + [stem + ".css"];
      assert (stem + ".css")[|stem|..] == ".css";
    }
  }

  ghost predicate ReferencesResolve(site: Site, p: Path) {
    p in site.tree
    && forall i :: 0 <= i < |site.tree[p].references| ==> TopAsset(site, site.tree[p].references[i]).Found?
  }

  /** A reference from the top directory. */
  function TopAsset(site: Site, value: string): Asset {
    RequireAsset(site.tree, site.root, site.root, value)
  }

  /** The page loads a module script that is there, and everything that the page, the stylesheets beside it and the
      modules reached from the script refer to is there too. */
  ghost predicate LoadsOnlyItself(site: Site) {
    && ReferencesResolve(site, Page(site))
    && (forall p :: IsTopStylesheet(site, p) ==> ReferencesResolve(site, p))
    && site.tree[Page(site)].script.Script?
    && var entry := TopAsset(site, site.tree[Page(site)].script.src);
       entry.Found? && forall m :: Reached(site, entry.path, m) ==> ImportsResolve(site, m)
  }

  datatype Checked = Valid(script: string) | Invalid(error: AssetError)

  method RequireAll(site: Site, p: Path) returns (r: Asset)
    requires p in site.tree
    ensures r.Found? <==> ReferencesResolve(site, p)
  {
    hide RequireAsset;
    var references := site.tree[p].references;
    for i := 0 to |references|
      invariant forall j :: 0 <= j < i ==> TopAsset(site, references[j]).Found?
    {
      r := TopAsset(site, references[i]);
      if r.Refused? { return; }
    }
    return Found(p);
  }

  /** The stylesheets beside the page, in some order. */
  method TopStylesheets(site: Site) returns (sheets: seq<Path>)
    ensures forall p :: p in sheets <==> IsTopStylesheet(site, p)
  {
    sheets := [];
    var left := site.tree.Keys;
    while left != {}
      invariant left <= site.tree.Keys
      invariant forall p :: p in sheets <==> p !in left && IsTopStylesheet(site, p)
      decreases left
    {
      var p :| p in left;
      left := left - {p};
      if IsTopStylesheet(site, p) { sheets := sheets + [p]; }
    }
  }

  method RequireStylesheets(site: Site) returns (r: Asset)
    ensures r.Found? <==> forall p :: IsTopStylesheet(site, p) ==> ReferencesResolve(site, p)
  {
    hide ReferencesResolve;
    var sheets := TopStylesheets(site);
    for k := 0 to |sheets|
      invariant forall j :: 0 <= j < k ==> ReferencesResolve(site, sheets[j])
    {
      assert IsTopStylesheet(site, sheets[k]);
      r := RequireAll(site, sheets[k]);
      if r.Refused? { return; }
    }
    return Found(site.root);
  }

  /** Accepts exactly the sites that load nothing but themselves. */
  method ValidateAssetGraph(site: Site) returns (r: Checked)
    ensures r.Valid? <==> LoadsOnlyItself(site)
    ensures r.Valid? ==> site.tree[Page(site)].script == Script(r.script)
  {
    hide IsTopStylesheet, ImportsResolve, Reached, RequireAsset;
    if Page(site) !in site.tree { return Invalid(NoPage); }
    var page := site.tree[Page(site)];
    if page.script.NoScript? { return Invalid(NoAppScript); }
    var references := RequireAll(site, Page(site));
    if references.Refused? { return Invalid(references.error); }
    var sheets := RequireStylesheets(site);
    if sheets.Refused? { return Invalid(sheets.error); }
    var entry := TopAsset(site, page.script.src);
    if entry.Refused? { return Invalid(entry.error); }
    var walked := WalkModules(site, entry.path);
    match walked
    case Broken(error) => return Invalid(error);
    case Closed(_) => return Valid(page.script.src);
  }
}
