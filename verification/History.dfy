/** The history table: what a deployer expects of it, and the guard that compares it with the live table. */
module History {
  import opened Text
  import opened Transaction
  import opened DeploymentText
  import opened RequestReading
  import opened Versions
  import opened MigrationFiles

  /** The table as its primary key makes it: one checksum a version. */
  type Table = map<string, string>

  function RowVersions(rows: seq<Row>): seq<string> {
    seq(|rows|, i requires 0 <= i < |rows| => rows[i].version)
  }

  predicate Holds(table: Table, row: Row) {
    row.version in table && table[row.version] == row.sha256
  }

  /** The rows of the table in the order of their versions. */
  ghost predicate Lists(rows: seq<Row>, table: Table) {
    && Ascending(RowVersions(rows))
    && (forall i :: 0 <= i < |rows| ==> Holds(table, rows[i]))
    && forall v :: v in table ==> v in RowVersions(rows)
  }

  /** What the guard tests: the count, and the left join when any row is compared. */
  predicate Agrees(live: Table, c: Comparison) {
    && |live| == c.count
    && !(exists i :: 0 <= i < |c.rows| && !Holds(live, c.rows[i]))
  }

  /** The test of a request that expects these rows. */
  predicate GuardPasses(live: Table, expected: seq<Row>) {
    Agrees(live, Comparison(|expected|, expected))
  }

  function VersionSet(rows: seq<Row>): set<string> {
    set i | 0 <= i < |rows| :: rows[i].version
  }

  lemma {:induction false} AscendingCount(rows: seq<Row>)
    requires Ascending(RowVersions(rows))
    ensures |VersionSet(rows)| == |rows|
  {
    if rows != [] {
      var n := |rows| - 1;
      var most := rows[..n];
      assert Ascending(RowVersions(most)) by {
        assert forall i :: 0 <= i < n ==> RowVersions(most)[i] == RowVersions(rows)[i];
      }
      AscendingCount(most);
      assert VersionSet(rows) == VersionSet(most) + {rows[n].version} by {
        assert forall i :: 0 <= i < n ==> most[i] == rows[i];
      }
      if rows[n].version in VersionSet(most) {
        var i :| 0 <= i < n && most[i].version == rows[n].version;
        assert RowVersions(rows)[i] == RowVersions(rows)[n];
        AscendingDistinct(RowVersions(rows), i, n);
      }
    }
  }

  lemma {:induction false} SubsetOfSameSize<T>(a: set<T>, b: set<T>)
    requires a <= b && |a| == |b|
    ensures a == b
  {
    if a != {} {
      var x :| x in a;
      SubsetOfSameSize(a - {x}, b - {x});
    }
  }

  /** A live table that passes the guard holds nothing but the expected rows. */
  lemma GuardCovers(live: Table, expected: seq<Row>)
    requires Ascending(RowVersions(expected)) && GuardPasses(live, expected)
    ensures Lists(expected, live)
  {
    AscendingCount(expected);
    forall v | v in VersionSet(expected) ensures v in live {
      var i :| 0 <= i < |expected| && expected[i].version == v;
      assert Holds(live, expected[i]);
    }
    SubsetOfSameSize(VersionSet(expected), live.Keys);
    forall v | v in live ensures v in RowVersions(expected) {
      assert v in VersionSet(expected);
      var i :| 0 <= i < |expected| && expected[i].version == v;
      assert RowVersions(expected)[i] == v;
    }
  }

  lemma ListedSet(rows: seq<Row>, table: Table)
    requires Lists(rows, table)
    ensures VersionSet(rows) == table.Keys && |rows| == |table|
  {
    AscendingCount(rows);
    forall v | v in table ensures v in VersionSet(rows) {
      var i :| 0 <= i < |rows| && RowVersions(rows)[i] == v;
      assert rows[i].version == v;
    }
    forall v | v in VersionSet(rows) ensures v in table {
      var i :| 0 <= i < |rows| && rows[i].version == v;
      assert Holds(table, rows[i]);
    }
  }

  /** The count test and the left join together pass exactly when the live table is the expected one, the empty
      expectation included. */
  lemma GuardIsEquality(live: Table, expected: Table, rows: seq<Row>)
    requires Lists(rows, expected)
    ensures GuardPasses(live, rows) <==> live == expected
  {
    ListedSet(rows, expected);
    if GuardPasses(live, rows) {
      GuardCovers(live, rows);
      ListedSet(rows, live);
      forall v | v in expected ensures live[v] == expected[v] {
        var i :| 0 <= i < |rows| && RowVersions(rows)[i] == v;
        assert Holds(live, rows[i]) && Holds(expected, rows[i]);
      }
    }
  }

  // ---------------------------------------------------------------------------------------------
  // What a checkout makes of the history
  // ---------------------------------------------------------------------------------------------

  /** A checksum under which a version may have been deployed, although the repository now holds another. */
  datatype Compatibility = Compatibility(version: string, deployed: string, repository: string)

  datatype Checkout = Checkout(migrations: seq<Migration>, compatible: set<Compatibility>)

  datatype HistoryError = ManifestMismatch | NotInCheckout | ChecksumMismatch | NotAPrefix

  function RowOf(m: Migration): Row {
    Row(m.version, m.sha256)
  }

  function RowsOf(ms: seq<Migration>): seq<Row> {
    seq(|ms|, i requires 0 <= i < |ms| => RowOf(ms[i]))
  }

  predicate Compatible(checkout: Checkout, row: Row, m: Migration) {
    row.sha256 == m.sha256 || Compatibility(row.version, row.sha256, m.sha256) in checkout.compatible
  }

  /** The place of a version among the migrations, or their number. */
  function PlaceOf(migrations: seq<Migration>, version: string): (k: nat)
    ensures k <= |migrations|
    ensures k < |migrations| ==> migrations[k].version == version
    ensures forall i :: 0 <= i < k ==> migrations[i].version != version
  {
    if migrations == [] || migrations[0].version == version then 0
    else
      var k := PlaceOf(migrations[1..], version);
      assert forall i :: 1 <= i < k + 1 ==> migrations[i] == migrations[1..][i - 1];
      k + 1
  }

  predicate ManifestMatches(checkout: Checkout) {
    forall allowed :: allowed in checkout.compatible ==>
      var k := PlaceOf(checkout.migrations, allowed.version);
      k < |checkout.migrations| && checkout.migrations[k].sha256 == allowed.repository
  }

  function CheckRows(checkout: Checkout, rows: seq<Row>): Result<(), HistoryError> {
    if rows == [] then Ok(())
    else
      var k := PlaceOf(checkout.migrations, rows[0].version);
      if k == |checkout.migrations| then Err(NotInCheckout)
      else if !Compatible(checkout, rows[0], checkout.migrations[k]) then Err(ChecksumMismatch)
      else CheckRows(checkout, rows[1..])
  }

  /** The checks before any write; the rows come in the order of their versions. */
  function ValidateHistory(checkout: Checkout, rows: seq<Row>): Result<(), HistoryError> {
    if !ManifestMatches(checkout) then Err(ManifestMismatch)
    else
      var checked := CheckRows(checkout, rows);
      if checked.Err? then checked
      else
        var local := VersionsOf(checkout.migrations);
        var n := if |rows| < |local| then |rows| else |local|;
        if RowVersions(rows) != local[..n] then Err(NotAPrefix) else Ok(())
  }

  /** The history lists the first migrations of the checkout, each under its own checksum or a compatible one. */
  predicate IsPrefix(checkout: Checkout, rows: seq<Row>) {
    && |rows| <= |checkout.migrations|
    && forall i :: 0 <= i < |rows| ==>
         rows[i].version == checkout.migrations[i].version && Compatible(checkout, rows[i], checkout.migrations[i])
  }

  /** The row is of a migration of the checkout, under its checksum or a compatible one. */
  predicate IsKnownRow(checkout: Checkout, row: Row) {
    var k := PlaceOf(checkout.migrations, row.version);
    k < |checkout.migrations| && Compatible(checkout, row, checkout.migrations[k])
  }

  lemma {:induction false} RowsChecked(checkout: Checkout, rows: seq<Row>)
    ensures CheckRows(checkout, rows).Ok? <==> forall i :: 0 <= i < |rows| ==> IsKnownRow(checkout, rows[i])
  {
    if rows != [] {
      var rest := rows[1..];
      assert CheckRows(checkout, rows).Ok? <==> IsKnownRow(checkout, rows[0]) && CheckRows(checkout, rest).Ok?;
      hide CheckRows, IsKnownRow;
      RowsChecked(checkout, rest);
      assert forall i :: 1 <= i < |rows| ==> rows[i] == rest[i - 1];
      assert forall i :: 0 <= i < |rest| ==> rest[i] == rows[i + 1];
    }
  }

  lemma PlaceIs(migrations: seq<Migration>, i: nat)
    requires Ascending(VersionsOf(migrations)) && i < |migrations|
    ensures PlaceOf(migrations, migrations[i].version) == i
  {
    var k := PlaceOf(migrations, migrations[i].version);
    assert VersionsOf(migrations)[i] == VersionsOf(migrations)[k];
    AscendingDistinct(VersionsOf(migrations), i, k);
  }

  /** The validation accepts exactly the compatible prefixes of a checkout that the manifest matches. */
  lemma ValidExactlyForPrefix(checkout: Checkout, rows: seq<Row>)
    requires Ascending(VersionsOf(checkout.migrations))
    ensures ValidateHistory(checkout, rows).Ok? <==> ManifestMatches(checkout) && IsPrefix(checkout, rows)
  {
    RowsChecked(checkout, rows);
    var ms := checkout.migrations;
    var local := VersionsOf(ms);
    if IsPrefix(checkout, rows) {
      forall i | 0 <= i < |rows| ensures PlaceOf(ms, rows[i].version) == i { PlaceIs(ms, i); }
      assert RowVersions(rows) == local[..|rows|];
    }
    if ValidateHistory(checkout, rows).Ok? {
      assert |RowVersions(rows)| == |rows| <= |local|;
      forall i | 0 <= i < |rows|
        ensures rows[i].version == ms[i].version && Compatible(checkout, rows[i], ms[i])
      {
        assert RowVersions(rows)[i] == local[i];
        PlaceIs(ms, i);
      }
    }
  }

  // ---------------------------------------------------------------------------------------------
  // When a file is changed
  // ---------------------------------------------------------------------------------------------

  /** The checkout with another checksum for one file, and an entry that allows the old one. */
  function Changed(c: Checkout, i: nat, sha256: string): Checkout
    requires i < |c.migrations|
  {
    var m := c.migrations[i];
    Checkout(c.migrations[i := m.(sha256 := sha256)], c.compatible + {Compatibility(m.version, m.sha256, sha256)})
  }

  /** A history that was deployed before the change is still accepted, as long as no entry was there for the file. */
  lemma ChangedIsAccepted(c: Checkout, i: nat, sha256: string, rows: seq<Row>)
    requires Ascending(VersionsOf(c.migrations)) && i < |c.migrations| && ValidateHistory(c, rows).Ok?
    requires forall entry :: entry in c.compatible ==> entry.version != c.migrations[i].version
    requires i < |rows| ==> rows[i].sha256 == c.migrations[i].sha256
    ensures ValidateHistory(Changed(c, i, sha256), rows).Ok?
  {
    var d := Changed(c, i, sha256);
    assert VersionsOf(d.migrations) == VersionsOf(c.migrations);
    ValidExactlyForPrefix(c, rows);
    ValidExactlyForPrefix(d, rows);
    hide ValidateHistory, Ascending;
    ChangedManifest(c, i, sha256);
  }

  lemma ChangedManifest(c: Checkout, i: nat, sha256: string)
    requires Ascending(VersionsOf(c.migrations)) && i < |c.migrations| && ManifestMatches(c)
    requires forall entry :: entry in c.compatible ==> entry.version != c.migrations[i].version
    ensures ManifestMatches(Changed(c, i, sha256))
  {
    var d := Changed(c, i, sha256);
    assert VersionsOf(d.migrations) == VersionsOf(c.migrations);
    forall entry | entry in d.compatible
      ensures
        var k := PlaceOf(d.migrations, entry.version);
        k < |d.migrations| && d.migrations[k].sha256 == entry.repository
    {
      if entry in c.compatible {
        var k := PlaceOf(c.migrations, entry.version);
        PlaceIs(d.migrations, k);
      } else {
        PlaceIs(d.migrations, i);
      }
    }
  }

  /** A history with any other checksum for a file that has no entry is refused. */
  lemma OtherChecksumRefused(c: Checkout, i: nat, rows: seq<Row>)
    requires Ascending(VersionsOf(c.migrations)) && i < |c.migrations| && i < |rows|
    requires forall entry :: entry in c.compatible ==> entry.version != c.migrations[i].version
    requires rows[i].version == c.migrations[i].version && rows[i].sha256 != c.migrations[i].sha256
    ensures ValidateHistory(c, rows).Err?
  {
    ValidExactlyForPrefix(c, rows);
    hide ValidateHistory;
  }

  lemma PrefixVersions(checkout: Checkout, rows: seq<Row>)
    requires IsPrefix(checkout, rows)
    ensures RowVersions(rows) == VersionsOf(checkout.migrations)[..|rows|]
  {}
}
