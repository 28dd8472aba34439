/** The file effects of a build: the output directory is replaced by a copy of the source with three files changed, and
    nothing else in the file system is touched. */
module ReleaseBuild {
  import opened AssetGraph
  import opened ReleaseContents
  import opened ReleasePaths

  datatype BuildError = IncompleteSource | MissingEdge | UnsafeOutput | InvalidAssets(error: AssetError) | InvalidContents

  /** What the manifest says. */
  datatype Manifest = Manifest(script: string, gate: string, hashes: map<Path, string>)

  datatype Built = Release(manifest: Manifest) | Rejected(error: BuildError)

  function Lookup(files: Tree, p: Path): (r: seq<File>) {
    if p in files then [files[p]] else []
  }

  const EMPTY := File("", [], NoScript)

  /** What the prepared output holds at a path below it. */
  function PreparedAt(files: Tree, source: Path, config: File, below: Path): seq<File> {
    if below == ["config.js"] then [config]
    else if below == ["config.example.js"] then []
    else if below == [".nojekyll"] then if source + below in files then [files[source + below]] else [EMPTY]
    else Lookup(files, source + below)
  }

  /** The tree in which the output is replaced and all else is as before. */
  ghost predicate Prepared(before: Tree, after: Tree, source: Path, output: Path, config: File) {
    && (forall p :: !Below(output, p) ==> Lookup(after, p) == Lookup(before, p))
    && (forall below :: Lookup(after, output + below) == PreparedAt(before, source, config, below))
  }

  ghost predicate OnlyOutputChanged(before: Tree, after: Tree, output: Path) {
    forall p :: !Below(output, p) ==> Lookup(after, p) == Lookup(before, p)
  }

  /** The path that is copied to `p`. */
  function Origin(source: Path, output: Path, p: Path): Path
    requires Below(output, p)
  {
    source + p[|output|..]
  }

  class FileSystem {
    var files: Tree

    constructor (files: Tree)
      ensures this.files == files
    {
      this.files := files;
    }

    method RemoveTree(directory: Path)
      modifies this
      ensures forall p :: Lookup(files, p) == if Below(directory, p) then [] else old(Lookup(files, p))
    {
      files := map p | p in files && !Below(directory, p) :: files[p];
    }

    /** The target must hold nothing and must not lie in the source. */
    method CopyTree(source: Path, output: Path)
      requires forall p :: p in files ==> !Below(output, p)
      requires SafeOutput(source, output)
      modifies this
      ensures forall p :: Below(output, p) ==> Lookup(files, p) == old(Lookup(files, Origin(source, output, p)))
      ensures forall p :: !Below(output, p) ==> Lookup(files, p) == old(Lookup(files, p))
    {
      var targets := set p | p in files && Below(source, p) :: output + p[|source|..];
      forall q ensures q in targets <==> Below(output, q) && Origin(source, output, q) in files {
        TargetOfOrigin(files, source, output, q);
      }
      files := files + map q | q in targets :: files[Origin(source, output, q)];
    }

    method Write(p: Path, file: File)
      modifies this
      ensures files == old(files)[p := file]
    {
      files := files[p := file];
    }

    method Unlink(p: Path)
      modifies this
      ensures files == old(files) - {p}
    {
      files := files - {p};
    }

    method Touch(p: Path)
      modifies this
      ensures files == if p in old(files) then old(files) else old(files)[p := EMPTY]
    {
      if p !in files { files := files[p := EMPTY]; }
    }
  }

  lemma TargetOfOrigin(files: Tree, source: Path, output: Path, q: Path)
    ensures q in (set p | p in files && Below(source, p) :: output + p[|source|..])
       <==> Below(output, q) && Origin(source, output, q) in files
  {
    if Below(output, q) && Origin(source, output, q) in files {
      var p := Origin(source, output, q);
      assert Below(source, p) && p[|source|..] == q[|output|..];
      assert q == output + p[|source|..];
    }
    if p :| p in files && Below(source, p) && q == output + p[|source|..] {
      assert Origin(source, output, q) == p;
    }
  }

  /** Replace the output by a copy of the source, without the example configuration and with the real one. */
  method Prepare(fs: FileSystem, source: Path, output: Path, config: File)
    requires SafeOutput(source, output)
    modifies fs
    ensures Prepared(old(fs.files), fs.files, source, output, config)
  {
    ghost var before := fs.files;
    fs.RemoveTree(output);
    ghost var removed := fs.files;
    forall p ensures p in fs.files ==> !Below(output, p) { assert Lookup(fs.files, p) != [] <==> p in fs.files; }
    fs.CopyTree(source, output);
    ghost var copied := fs.files;
    CopiedFromBefore(before, removed, copied, source, output);
    fs.Unlink(output + ["config.example.js"]);
    fs.Touch(output + [".nojekyll"]);
    fs.Write(output + ["config.js"], config);
    ChangedThree(before, copied, source, output, config);
    assert fs.files == Changed(copied, output, config);
  }

  lemma CopiedFromBefore(before: Tree, removed: Tree, copied: Tree, source: Path, output: Path)
    requires SafeOutput(source, output)
    requires forall p :: Lookup(removed, p) == if Below(output, p) then [] else Lookup(before, p)
    requires forall p :: Below(output, p) ==> Lookup(copied, p) == Lookup(removed, Origin(source, output, p))
    requires forall p :: !Below(output, p) ==> Lookup(copied, p) == Lookup(removed, p)
    ensures forall p :: !Below(output, p) ==> Lookup(copied, p) == Lookup(before, p)
    ensures forall below :: Lookup(copied, output + below) == Lookup(before, source + below)
  {
    hide Lookup;
    SafeExactlyWhenDisjoint(source, output);
    forall below ensures Lookup(copied, output + below) == Lookup(before, source + below) {
      assert Below(output, output + below) && (output + below)[|output|..] == below;
      assert Origin(source, output, output + below) == source + below;
      assert Below(source, source + below);
    }
  }

  /** The copy with its three changes. */
  function Changed(copied: Tree, output: Path, config: File): Tree {
    var without := copied - {output + ["config.example.js"]};
    var hidden := output + [".nojekyll"];
    (if hidden in without then without else without[hidden := EMPTY])[output + ["config.js"] := config]
  }

  lemma ChangedThree(before: Tree, copied: Tree, source: Path, output: Path, config: File)
    requires forall p :: !Below(output, p) ==> Lookup(copied, p) == Lookup(before, p)
    requires forall below :: Lookup(copied, output + below) == Lookup(before, source + below)
    ensures Prepared(before, Changed(copied, output, config), source, output, config)
  {
    var after := Changed(copied, output, config);
    hide Lookup, PreparedAt, Changed;
    forall below ensures Lookup(after, output + below) == PreparedAt(before, source, config, below) {
      assert Lookup(copied, output + below) == Lookup(before, source + below);
      ChangedBelow(before, copied, source, output, config, below);
    }
    forall p | !Below(output, p) ensures Lookup(after, p) == Lookup(before, p) {
      ChangedOutside(copied, output, config, p);
    }
  }

  lemma SameBelow(output: Path, below: Path, name: string)
    ensures output + below == output + [name] <==> below == [name]
  {
    assert (output + below)[|output|..] == below && (output + [name])[|output|..] == [name];
  }

  lemma ChangedBelow(before: Tree, copied: Tree, source: Path, output: Path, config: File, below: Path)
    requires Lookup(copied, output + below) == Lookup(before, source + below)
    ensures Lookup(Changed(copied, output, config), output + below) == PreparedAt(before, source, config, below)
  {
    SameBelow(output, below, "config.js");
    SameBelow(output, below, "config.example.js");
    SameBelow(output, below, ".nojekyll");
    assert [".nojekyll"][0] != ["config.example.js"][0];
  }

  lemma ChangedOutside(copied: Tree, output: Path, config: File, p: Path)
    requires !Below(output, p)
    ensures Lookup(Changed(copied, output, config), p) == Lookup(copied, p)
  {
    assert forall name: string :: Below(output, output + [name]);
  }

  /** The output is released: it loads nothing but itself, its contents pass the checks, and the manifest in it gives
      the script that its page loads, the gate that client and server share, and the digests of all its files. */
  ghost predicate Released(prepared: Tree, after: Tree, output: Path, edge: Path, checks: Checks, m: Manifest, text: string) {
    && LoadsOnlyItself(Site(output, prepared))
    && ContentsFit(prepared, output, edge, checks)
    && after == prepared[output + [MANIFEST] := File(text, [], NoScript)]
    && prepared[Page(Site(output, prepared))].script == Script(m.script)
    && checks.gate(prepared[output + APP].text) == checks.gate(prepared[edge].text)
    && checks.gate(prepared[edge].text) != [] && m.gate == checks.gate(prepared[edge].text)[0]
    && Describes(m.hashes, after, output, checks)
  }

  /** Every refusal has its reason, so a build of a complete source into a separate output whose prepared files pass the
      checks is a release. A build that is refused before it starts leaves every file alone; any other changes files below the output only,
      so the source stays as it was. A release is built only from an output that loads nothing but itself and whose
      contents pass every check, and that output gets the manifest only then. */
  method BuildRelease(fs: FileSystem, source: Path, output: Path, edge: Path, config: File, checks: Checks,
                      render: Manifest -> string) returns (r: Built)
    modifies fs
    ensures OnlyOutputChanged(old(fs.files), fs.files, output)
    ensures SafeOutput(source, output) ==> forall p :: Below(source, p) ==> Lookup(fs.files, p) == old(Lookup(fs.files, p))
    ensures r.Rejected? && (r.error.IncompleteSource? || r.error.MissingEdge? || r.error.UnsafeOutput?) ==> fs.files == old(fs.files)
    ensures r.Rejected? && (r.error.InvalidAssets? || r.error.InvalidContents?) ==>
      Prepared(old(fs.files), fs.files, source, output, config)
    ensures r.Rejected? && r.error.IncompleteSource? ==> source + ["index.html"] !in old(fs.files)
    ensures r.Rejected? && r.error.MissingEdge? ==> edge !in old(fs.files)
    ensures r.Rejected? && r.error.UnsafeOutput? ==> !SafeOutput(source, output)
    ensures r.Rejected? && r.error.InvalidAssets? ==> !LoadsOnlyItself(Site(output, fs.files))
    ensures r.Rejected? && r.error.InvalidContents? ==> !ContentsFit(fs.files, output, edge, checks)
    ensures r.Release? ==> SafeOutput(source, output) && exists prepared ::
      && Prepared(old(fs.files), prepared, source, output, config)
      && Released(prepared, fs.files, output, edge, checks, r.manifest, render(r.manifest))
  {
    hide SafeOutput, PreparedAt, VendorFits, AllPublic, ReferencesResolve, Describes;
    SafeExactlyWhenDisjoint(source, output);
    if source + ["index.html"] !in fs.files { return Rejected(IncompleteSource); }
    if edge !in fs.files { return Rejected(MissingEdge); }
    if !SafeOutput(source, output) { return Rejected(UnsafeOutput); }
    Prepare(fs, source, output, config);
    var prepared := fs.files;
    var checked := ValidateAssetGraph(Site(output, prepared));
    if checked.Invalid? { return Rejected(InvalidAssets(checked.error)); }
    var fit := ValidateContents(prepared, output, edge, checks);
    if !fit { return Rejected(InvalidContents); }
    var hashes := ArtifactHashes(prepared, output, checks);
    var manifest := Manifest(checked.script, checks.gate(prepared[edge].text)[0], hashes);
    var file := File(render(manifest), [], NoScript);
    fs.Write(output + [MANIFEST], file);
    ManifestKeepsDescription(hashes, prepared, output, checks, file);
    assert Below(output, output + [MANIFEST]);
    assert Released(prepared, fs.files, output, edge, checks, manifest, render(manifest));
    return Release(manifest);
  }
}
