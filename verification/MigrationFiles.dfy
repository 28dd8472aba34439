/** Loading the migration files of a checkout. */
module MigrationFiles {
  import opened Text
  import opened SqlLexer
  import opened Transaction
  import opened DeploymentText
  import opened Versions

  /** A file of the directory: its name, its text if it is UTF-8, and the SHA-256 of its bytes. */
  datatype File = File(name: string, text: Result<string, ()>, digest: string)

  datatype Migration = Migration(version: string, sha256: string, body: string)

  datatype LoadError = NoMigrations | BadName | DuplicateVersion | NotUtf8 | Unwrapped(error: WrapError) | NotSorted

  predicate IsSlugChar(c: char) {
    'a' <= c <= 'z' || IsDigit(c) || c == '_'
  }

  function DigitRun(s: string): (n: nat)
    ensures n <= |s| && AllDigits(s[..n])
    ensures n < |s| ==> !IsDigit(s[n])
  {
    if s != "" && IsDigit(s[0]) then
      var n := DigitRun(s[1..]) + 1;
      assert s[..n] == [s[0]] + s[1..][..n - 1];
      n
    else 0
  }

  /** `^(?P<version>[0-9]{12,20})_[a-z0-9][a-z0-9_]*[.]sql$`: where the version ends, if the name has this form. */
  predicate IsMigrationName(name: string) {
    var n := DigitRun(name);
    var rest := name[n..];
    && 12 <= n <= 20
    && |rest| >= 6
    && rest[0] == '_'
    && IsSlugChar(rest[1]) && rest[1] != '_'
    && (forall i :: 2 <= i < |rest| - 4 ==> IsSlugChar(rest[i]))
    && rest[|rest| - 4..] == ".sql"
  }

  function VersionOf(name: string): string {
    name[..DigitRun(name)]
  }

  /** The name of a migration, as its parts are put together. */
  function NameOf(version: string, slug: string): string {
    version + ("_" + (slug + ".sql"))
  }

  predicate IsSlug(slug: string) {
    && slug != "" && slug[0] in LOWER + DIGITS
    && forall i :: 0 <= i < |slug| ==> slug[i] in LOWER + DIGITS + "_"
  }

  lemma SlugCharacters(c: char)
    ensures IsSlugChar(c) <==> c in LOWER + DIGITS + "_"
    ensures IsSlugChar(c) && c != '_' <==> c in LOWER + DIGITS
    ensures IsDigit(c) <==> c in DIGITS
  {
    WordCharacters(c);
    Alphabets();
    if 'a' <= c <= 'z' { PlaceIn(LOWER, 'a', c); }
    if '0' <= c <= '9' { PlaceIn(DIGITS, '0', c); }
    hide LOWER, DIGITS;
  }

  lemma {:induction false} DigitRunIs(version: string, rest: string)
    requires AllDigits(version) && (rest != "" ==> !IsDigit(rest[0]))
    ensures DigitRun(version + rest) == |version|
  {
    if version == "" {
      assert version + rest == rest;
    } else {
      assert (version + rest)[1..] == version[1..] + rest;
      DigitRunIs(version[1..], rest);
    }
  }

  /** Every name that is put together from a version and a slug is accepted, and gives its version. */
  lemma BuiltNameIsAccepted(version: string, slug: string)
    requires IsVersion(version) && IsSlug(slug)
    ensures IsMigrationName(NameOf(version, slug)) && VersionOf(NameOf(version, slug)) == version
  {
    hide DigitRun, LOWER, DIGITS;
    var rest := "_" + (slug + ".sql");
    DigitRunIs(version, rest);
    var name := version + rest;
    assert name[|version|..] == rest && name[..|version|] == version;
    assert rest[|rest| - 4..] == ".sql";
    forall i | 0 <= i < |slug| ensures IsSlugChar(slug[i]) { SlugCharacters(slug[i]); }
    SlugCharacters(slug[0]);
    forall i | 2 <= i < |rest| - 4 ensures IsSlugChar(rest[i]) { assert rest[i] == slug[i - 1]; }
    assert rest[1] == slug[0];
  }

  /** And no other name is. */
  lemma AcceptedNameIsBuilt(name: string) returns (slug: string)
    requires IsMigrationName(name)
    ensures IsVersion(VersionOf(name)) && IsSlug(slug) && name == NameOf(VersionOf(name), slug)
  {
    hide DigitRun, LOWER, DIGITS;
    var n := DigitRun(name);
    var rest := name[n..];
    slug := rest[1..|rest| - 4];
    forall i | 0 <= i < |slug| ensures slug[i] in LOWER + DIGITS + "_" {
      assert slug[i] == rest[i + 1];
      SlugCharacters(slug[i]);
    }
    assert slug[0] == rest[1];
    SlugCharacters(slug[0]);
    assert rest == "_" + (slug + ".sql") by { assert rest == rest[..1] + (rest[1..|rest| - 4] + rest[|rest| - 4..]); }
  }

  function VersionsOf(ms: seq<Migration>): seq<string> {
    seq(|ms|, i requires 0 <= i < |ms| => ms[i].version)
  }

  function NamesVersions(listing: seq<File>): seq<string> {
    seq(|listing|, i requires 0 <= i < |listing| => VersionOf(listing[i].name))
  }

  predicate FileLoads(file: File) {
    IsMigrationName(file.name) && file.text.Ok? && Unwrap(file.text.value).Ok?
  }

  function Loaded(file: File): Migration
    requires FileLoads(file)
  {
    Migration(VersionOf(file.name), file.digest, Unwrap(file.text.value).value)
  }

  /** `values != sorted(values)` fails exactly when some later value is smaller than an earlier one. */
  predicate IsSorted(values: seq<string>) {
    forall i, j :: 0 <= i < j < |values| ==> !Less(values[j], values[i])
  }

  lemma SortedDistinctAscends(values: seq<string>)
    requires forall i, j :: 0 <= i < j < |values| ==> values[i] != values[j]
    ensures IsSorted(values) <==> Ascending(values)
  {
    forall i, j | 0 <= i < j < |values|
      ensures !Less(values[j], values[i]) <==> Less(values[i], values[j])
    {
      LessTotal(values[i], values[j]);
      if Less(values[j], values[i]) && Less(values[i], values[j]) {
        LessTransitive(values[i], values[j], values[i]);
        LessIrreflexive(values[i]);
      }
    }
  }

  /** What a file is loaded as, or why it is refused, once its version is known to be new. */
  function LoadFile(file: File): Result<Migration, LoadError> {
    if file.text.Err? then Err(NotUtf8)
    else
      var body := Unwrap(file.text.value);
      if body.Err? then Err(Unwrapped(body.error)) else Ok(Migration(VersionOf(file.name), file.digest, body.value))
  }

  lemma LoadFileLoads(file: File)
    ensures FileLoads(file) <==> IsMigrationName(file.name) && LoadFile(file).Ok?
    ensures FileLoads(file) ==> LoadFile(file) == Ok(Loaded(file)) && Loaded(file).version == VersionOf(file.name)
  {}

  /** Load the files, listed by name: exactly the nonempty listings are accepted in which every file loads and the
      versions ascend strictly; a listing by name that is not one by version is refused. */
  method LoadMigrations(listing: seq<File>) returns (r: Result<seq<Migration>, LoadError>)
    ensures r.Ok? <==> listing != [] && (forall i :: 0 <= i < |listing| ==> FileLoads(listing[i])) && Ascending(NamesVersions(listing))
    ensures r.Ok? ==> |r.value| == |listing| && forall i :: 0 <= i < |listing| ==> r.value[i] == Loaded(listing[i])
    ensures r.Ok? ==> Ascending(VersionsOf(r.value))
  {
    hide FileLoads, Loaded, LoadFile, IsMigrationName, VersionOf, Ascending, IsSorted;
    if listing == [] { return Err(NoMigrations); }
    var migrations: seq<Migration> := [];
    var versions: set<string> := {};
    ghost var names := NamesVersions(listing);
    for k := 0 to |listing|
      invariant |migrations| == k
      invariant forall i :: 0 <= i < k ==> FileLoads(listing[i]) && migrations[i] == Loaded(listing[i])
      invariant forall i :: 0 <= i < k ==> migrations[i].version == names[i]
      invariant forall i :: 0 <= i < k ==> names[i] in versions
      invariant forall v :: v in versions ==> exists i :: 0 <= i < k && names[i] == v
      invariant forall i, j :: 0 <= i < j < k ==> names[i] != names[j]
    {
      var file := listing[k];
      LoadFileLoads(file);
      if !IsMigrationName(file.name) { return Err(BadName); }
      var version := VersionOf(file.name);
      assert names[k] == version;
      if version in versions {
        RepeatedVersion(names, k);
        return Err(DuplicateVersion);
      }
      versions := versions + {version};
      var loaded := LoadFile(file);
      if loaded.Err? { return Err(loaded.error); }
      migrations := migrations + [loaded.value];
    }
    assert VersionsOf(migrations) == names;
    SortedDistinctAscends(names);
    if !IsSorted(VersionsOf(migrations)) { return Err(NotSorted); }
    return Ok(migrations);
  }

  lemma RepeatedVersion(names: seq<string>, k: nat)
    requires k < |names| && exists i :: 0 <= i < k && names[i] == names[k]
    ensures !Ascending(names)
  {
    var i :| 0 <= i < k && names[i] == names[k];
    if Ascending(names) { AscendingDistinct(names, i, k); }
  }

  lemma VersionHasFormat(name: string)
    requires IsMigrationName(name)
    ensures IsVersion(VersionOf(name))
  {}
}
