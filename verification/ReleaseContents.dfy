/** The checks of what the built files say, and the hashes of the artifact. What the patterns find in a text, what parsing
    it gives, and the digest, are given as functions of the text. */
module ReleaseContents {
  import opened Text
  import opened ReleasePaths

  /** `digest` is the SHA-256 of a file, `gate` the learning gate version that a text declares, if any, `notice` the texts
      under the keys of a JSON object. */
  datatype Checks = Checks(
    digest: string -> string,
    isSecret: string -> bool,
    isLocal: string -> bool,
    gate: string -> seq<string>,
    notice: string -> Option<map<string, string>>)

  const MANIFEST := "release-manifest.json"
  const NOTICE: Path := ["vendor", "supabase-js-2.57.4.NOTICE.json"]
  const ADAPTER: Path := ["vendor", "supabase-js-2.57.4.js"]
  const BUNDLE: Path := ["vendor", "supabase-js-2.57.4.umd.js"]
  const LICENSE: Path := ["vendor", "supabase-js-2.57.4.LICENSE.txt"]
  const BUNDLE_DIGEST := "7e94b62086deecef8c0ba3b38f514e2a1944ff6c81d92fb3ff967828c406c38f"
  const LICENSE_DIGEST := "334dd6820e2eaeab2064e7c59001b810566728a28a41a7c1dbf69bbee17d0936"
  const APP: Path := ["app.js"]
  const WORKSPACE: Path := ["workspace-os-v4-context-trash.js"]

  /** What the notice must say of the vendored package. */
  const EXPECTED_NOTICE := map[
    "package" := "@supabase/supabase-js",
    "version" := "2.57.4",
    "license" := "MIT",
    "npm_tarball_integrity" := "sha512-LcbTzFhHYdwfQ7TRPfol0z04rLEyHabpGYANME6wkQ/kLtKNmI+Vy+WEM8HxeOZAtByUFxoUTTLwhXmrh+CcVw==",
    "vendored_file_sha256" := BUNDLE_DIGEST,
    "license_file_sha256" := LICENSE_DIGEST]

  const ADAPTER_MARKS := [
    "import \"./supabase-js-2.57.4.umd.js\";",
    "typeof sdk.createClient !== \"function\"",
    "typeof sdk.processLock !== \"function\"",
    "export const createClient",
    "export const processLock"]

  const RUNTIME_URL := "const SUPABASE_SDK_URL = \"./vendor/supabase-js-2.57.4.js?v=20260826.rebuild-clean.60\";"
  const REMOTE_RUNTIME := "@supabase/supabase-js@2.57.4/+esm"
  const RUNTIME_LOCK := "lock: processLock"

  predicate StandsAt(text: string, mark: string, i: nat) {
    i + |mark| <= |text| && text[i..i + |mark|] == mark
  }

  predicate Contains(text: string, mark: string) {
    exists i :: 0 <= i <= |text| && StandsAt(text, mark, i)
  }

  predicate NoticeFits(notice: Option<map<string, string>>) {
    && notice.Some?
    && forall key :: key in EXPECTED_NOTICE ==> key in notice.value && notice.value[key] == EXPECTED_NOTICE[key]
  }

  predicate AdapterFits(text: string) {
    forall i :: 0 <= i < |ADAPTER_MARKS| ==> Contains(text, ADAPTER_MARKS[i])
  }

  predicate RuntimeFits(text: string) {
    Contains(text, RUNTIME_URL) && !Contains(text, REMOTE_RUNTIME) && Contains(text, RUNTIME_LOCK)
  }

  /** A file of the artifact, by its path below the root: every file but one that is called like the manifest. */
  predicate IsArtifact(tree: Tree, root: Path, below: Path) {
    below != [] && root + below in tree && below[|below| - 1] != MANIFEST
  }

  /** No server credential anywhere, and no local address but in the vendored bundle. */
  predicate IsPublic(checks: Checks, below: Path, text: string) {
    !checks.isSecret(text) && (below == BUNDLE || !checks.isLocal(text))
  }

  ghost predicate AllPublic(tree: Tree, root: Path, checks: Checks) {
    forall below :: IsArtifact(tree, root, below) ==> IsPublic(checks, below, tree[root + below].text)
  }

  /** A file that holds a credential is refused wherever it is put, and one with a local address anywhere but in the place
      of the vendored bundle. */
  lemma LeaksAreRefused(tree: Tree, root: Path, checks: Checks, below: Path, text: string)
    requires below != [] && below[|below| - 1] != "release-manifest.json" && AllPublic(Replaced(tree, root + below, text), root, checks)
    ensures !checks.isSecret(text) && (checks.isLocal(text) ==> below == ["vendor", "supabase-js-2.57.4.umd.js"])
  {
    assert IsArtifact(Replaced(tree, root + below, text), root, below);
  }

  predicate Fits(tree: Tree, p: Path, test: string -> bool) {
    p in tree && test(tree[p].text)
  }

  predicate VendorFits(tree: Tree, root: Path, checks: Checks) {
    && Fits(tree, root + NOTICE, text => NoticeFits(checks.notice(text)))
    && Fits(tree, root + BUNDLE, text => checks.digest(text) == BUNDLE_DIGEST)
    && Fits(tree, root + LICENSE, text => checks.digest(text) == LICENSE_DIGEST)
    && Fits(tree, root + ADAPTER, AdapterFits)
    && Fits(tree, root + APP, RuntimeFits)
    && Fits(tree, root + WORKSPACE, RuntimeFits)
  }

  function Replaced(tree: Tree, p: Path, text: string): Tree {
    tree[p := File(text, [], NoScript)]
  }

  /** Whatever text is put in the place of a vendored file, or of a script that loads it, is refused unless it is the same
      by its digest, says the same of the package, hands on the client with its lock, or loads the vendored runtime. */
  lemma TamperingIsRefused(tree: Tree, root: Path, checks: Checks, text: string)
    ensures VendorFits(Replaced(tree, root + BUNDLE, text), root, checks) ==>
      checks.digest(text) == "7e94b62086deecef8c0ba3b38f514e2a1944ff6c81d92fb3ff967828c406c38f"
    ensures VendorFits(Replaced(tree, root + LICENSE, text), root, checks) ==>
      checks.digest(text) == "334dd6820e2eaeab2064e7c59001b810566728a28a41a7c1dbf69bbee17d0936"
    ensures VendorFits(Replaced(tree, root + NOTICE, text), root, checks) ==> NoticeFits(checks.notice(text))
    ensures VendorFits(Replaced(tree, root + ADAPTER, text), root, checks) ==>
      Contains(text, "export const createClient") && Contains(text, "export const processLock")
    ensures VendorFits(Replaced(tree, root + APP, text), root, checks) ==>
      Contains(text, RUNTIME_URL) && !Contains(text, "@supabase/supabase-js@2.57.4/+esm") && Contains(text, "lock: processLock")
    ensures VendorFits(Replaced(tree, root + WORKSPACE, text), root, checks) ==>
      Contains(text, RUNTIME_URL) && !Contains(text, "@supabase/supabase-js@2.57.4/+esm") && Contains(text, "lock: processLock")
  {
    hide Contains;
    assert ADAPTER_MARKS[3] == "export const createClient" && ADAPTER_MARKS[4] == "export const processLock";
  }

  /** Client and server declare the same version of the learning gate. */
  predicate GatesAgree(tree: Tree, root: Path, edge: Path, checks: Checks) {
    && root + APP in tree && edge in tree
    && checks.gate(tree[root + APP].text) == checks.gate(tree[edge].text) != []
  }

  ghost predicate ContentsFit(tree: Tree, root: Path, edge: Path, checks: Checks) {
    VendorFits(tree, root, checks) && GatesAgree(tree, root, edge, checks) && AllPublic(tree, root, checks)
  }

  /** What lies below the root, by its path below it. */
  function PathBelow(root: Path, p: Path): Path
    requires Below(root, p)
  {
    p[|root|..]
  }

  lemma BelowAgain(root: Path, below: Path)
    ensures Below(root, root + below) && PathBelow(root, root + below) == below
  {}

  method ValidatePublic(tree: Tree, root: Path, checks: Checks) returns (ok: bool)
    ensures ok <==> AllPublic(tree, root, checks)
  {
    hide IsPublic;
    var left := tree.Keys;
    while left != {}
      invariant left <= tree.Keys
      invariant forall below ::
        IsArtifact(tree, root, below) && root + below !in left ==> IsPublic(checks, below, tree[root + below].text)
      decreases left
    {
      var p :| p in left;
      left := left - {p};
      if Below(root, p) {
        var below := PathBelow(root, p);
        assert p == root + below;
        if IsArtifact(tree, root, below) && !IsPublic(checks, below, tree[p].text) { return false; }
      }
      forall below | IsArtifact(tree, root, below) && root + below !in left
        ensures IsPublic(checks, below, tree[root + below].text)
      {
        BelowAgain(root, below);
      }
    }
    return true;
  }

  /** The digest of every file of the artifact, and of nothing else. */
  ghost predicate Describes(hashes: map<Path, string>, tree: Tree, root: Path, checks: Checks) {
    && (forall below :: below in hashes <==> IsArtifact(tree, root, below))
    && (forall below :: below in hashes ==> hashes[below] == checks.digest(tree[root + below].text))
  }

  method ArtifactHashes(tree: Tree, root: Path, checks: Checks) returns (hashes: map<Path, string>)
    ensures Describes(hashes, tree, root, checks)
  {
    hashes := map[];
    var left := tree.Keys;
    while left != {}
      invariant left <= tree.Keys
      invariant forall below :: below in hashes <==> IsArtifact(tree, root, below) && root + below !in left
      invariant forall below :: below in hashes ==> hashes[below] == checks.digest(tree[root + below].text)
      decreases left
    {
      var p :| p in left;
      ghost var before := hashes;
      left := left - {p};
      if Below(root, p) && IsArtifact(tree, root, PathBelow(root, p)) {
        assert root + PathBelow(root, p) == p;
        hashes := hashes[PathBelow(root, p) := checks.digest(tree[p].text)];
      }
      forall below ensures below in hashes <==> IsArtifact(tree, root, below) && root + below !in left {
        BelowAgain(root, below);
        assert Below(root, p) ==> p == root + PathBelow(root, p);
      }
    }
  }

  /** Writing the manifest afterwards does not make the hashes wrong: it is not part of what they describe. */
  lemma ManifestKeepsDescription(hashes: map<Path, string>, tree: Tree, root: Path, checks: Checks, manifest: File)
    requires Describes(hashes, tree, root, checks)
    ensures Describes(hashes, tree[root + [MANIFEST] := manifest], root, checks)
  {
    var after := tree[root + [MANIFEST] := manifest];
    forall below ensures IsArtifact(after, root, below) <==> IsArtifact(tree, root, below) {
      BelowAgain(root, below);
      BelowAgain(root, [MANIFEST]);
    }
    forall below | below in hashes ensures hashes[below] == checks.digest(after[root + below].text) {
      BelowAgain(root, below);
      BelowAgain(root, [MANIFEST]);
    }
  }

  /** Every check of the contents, in the order of the build. */
  method ValidateContents(tree: Tree, root: Path, edge: Path, checks: Checks) returns (ok: bool)
    ensures ok <==> ContentsFit(tree, root, edge, checks)
  {
    if !VendorFits(tree, root, checks) { return false; }
    if !GatesAgree(tree, root, edge, checks) { return false; }
    ok := ValidatePublic(tree, root, checks);
  }
}
