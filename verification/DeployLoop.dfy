/** The deploy loop of one deployer, against an API that other deployers use at the same time. */
module DeployLoop {
  import opened Text
  import opened DeploymentText
  import opened Versions
  import opened MigrationFiles
  import opened History
  import opened Deployment

  // ---------------------------------------------------------------------------------------------
  // The history table, in the order in which it is read
  // ---------------------------------------------------------------------------------------------

  function Inserted(rows: seq<Row>, row: Row): seq<Row> {
    if rows == [] || Less(row.version, rows[0].version) then [row] + rows
    else [rows[0]] + Inserted(rows[1..], row)
  }

  predicate HasVersion(rows: seq<Row>, version: string) {
    exists i :: 0 <= i < |rows| && rows[i].version == version
  }

  lemma {:induction false} InsertedMembers(rows: seq<Row>, row: Row)
    ensures forall r :: r in Inserted(rows, row) <==> r == row || r in rows
  {
    if rows != [] && !Less(row.version, rows[0].version) {
      InsertedMembers(rows[1..], row);
      assert rows == [rows[0]] + rows[1..];
    }
  }

  predicate Ordered(rows: seq<Row>) {
    forall i, j :: 0 <= i < j < |rows| ==> Less(rows[i].version, rows[j].version)
  }

  lemma {:induction false} InsertedOrdered(rows: seq<Row>, row: Row)
    requires Ordered(rows) && !HasVersion(rows, row.version)
    ensures Ordered(Inserted(rows, row))
  {
    if rows == [] {
    } else if Less(row.version, rows[0].version) {
      forall j | 0 <= j < |rows| ensures Less(row.version, rows[j].version) {
        if j > 0 { LessTransitive(row.version, rows[0].version, rows[j].version); }
      }
    } else {
      var rest := Inserted(rows[1..], row);
      assert !HasVersion(rows[1..], row.version) by {
        assert forall i :: 0 <= i < |rows| - 1 ==> rows[1..][i] == rows[i + 1];
      }
      InsertedOrdered(rows[1..], row);
      LessTotal(row.version, rows[0].version);
      InsertedMembers(rows[1..], row);
      forall j | 0 <= j < |rest| ensures Less(rows[0].version, rest[j].version) {
        assert rest[j] in rest;
        if rest[j] != row {
          var i :| 0 <= i < |rows| - 1 && rows[1..][i] == rest[j];
          assert rows[i + 1] == rest[j];
        }
      }
    }
  }

  /** Nothing is changed or removed. */
  ghost predicate Keeps(rows: seq<Row>, more: seq<Row>) {
    forall r :: r in rows ==> r in more
  }

  /** The guard, on the rows themselves: as many as expected, and every expected one is there. */
  predicate Passes(rows: seq<Row>, expected: seq<Row>) {
    |rows| == |expected| && forall i :: 0 <= i < |expected| ==> expected[i] in rows
  }

  /** It is the guard of the request on the table that the rows list. */
  lemma PassesIsGuard(rows: seq<Row>, expected: seq<Row>, table: Table)
    requires Lists(rows, table)
    ensures Passes(rows, expected) <==> GuardPasses(table, expected)
  {
    ListedSet(rows, table);
    forall i | 0 <= i < |expected| ensures expected[i] in rows <==> Holds(table, expected[i]) {
      if expected[i] in rows {
        var j :| 0 <= j < |rows| && rows[j] == expected[i];
        assert Holds(table, rows[j]);
      }
      if Holds(table, expected[i]) {
        var j :| 0 <= j < |rows| && RowVersions(rows)[j] == expected[i].version;
        assert Holds(table, rows[j]) && rows[j] == expected[i];
      }
    }
  }

  // ---------------------------------------------------------------------------------------------
  // The API
  // ---------------------------------------------------------------------------------------------

  /** What happens around one request: rows that other deployers land before it, whether it reaches the database,
      rows they land after it, and whether its reply comes back. */
  datatype Turn = Turn(before: seq<Row>, delivered: bool, after: seq<Row>, replied: bool)

  function Rest(script: seq<Turn>): seq<Turn> {
    if script == [] then [] else script[1..]
  }

  /** For so many requests nobody else lands anything, and every one arrives and is answered. */
  predicate IsSmooth(script: seq<Turn>, n: nat) {
    |script| >= n && forall i :: 0 <= i < n ==> script[i] == Turn([], true, [], true)
  }

  lemma SmoothOn(script: seq<Turn>, n: nat)
    requires IsSmooth(script, n) && n > 0
    ensures IsSmooth(script, 1) && IsSmooth(script, n - 1) && IsSmooth(Rest(script), n - 1)
  {}

  class ManagementApi {
    var created: bool
    var rows: seq<Row>
    var script: seq<Turn>
    ghost var requests: seq<Guarded>

    ghost predicate Valid()
      reads this
    {
      Ordered(rows)
    }

    constructor (created: bool, rows: seq<Row>, script: seq<Turn>)
      requires Ordered(rows)
      ensures Valid() && this.created == created && this.rows == rows && this.script == script && requests == []
    {
      this.created, this.rows, this.script, requests := created, rows, script, [];
    }

    /** The next turn of the script; a silent network when it is over. */
    method NextTurn() returns (turn: Turn)
      modifies `script
      ensures script == Rest(old(script))
      ensures turn == if old(script) == [] then Turn([], false, [], false) else old(script)[0]
    {
      if script == [] {
        turn := Turn([], false, [], false);
      } else {
        turn, script := script[0], script[1..];
      }
    }

    /** The primary key refuses a version that is there. */
    method Insert(row: Row)
      requires Valid()
      modifies `rows
      ensures Valid() && Keeps(old(rows), rows)
      ensures rows == if HasVersion(old(rows), row.version) then old(rows) else Inserted(old(rows), row)
      ensures !HasVersion(old(rows), row.version) ==> row in rows
    {
      if !HasVersion(rows, row.version) {
        InsertedMembers(rows, row);
        InsertedOrdered(rows, row);
        rows := Inserted(rows, row);
      }
    }

    method Land(others: seq<Row>)
      requires Valid()
      modifies `rows
      ensures Valid() && Keeps(old(rows), rows)
      ensures others == [] ==> rows == old(rows)
    {
      for i := 0 to |others|
        invariant Valid() && Keeps(old(rows), rows)
        invariant others == [] ==> rows == old(rows)
      {
        Insert(others[i]);
      }
    }

    /** Create the history objects if they are missing; safe to repeat. */
    method Bootstrap() returns (ok: bool)
      requires Valid()
      modifies `script, `rows, `created
      ensures Valid() && Keeps(old(rows), rows)
      ensures script == Rest(old(script))
      ensures IsSmooth(old(script), 1) ==> ok && rows == old(rows)
      ensures created == (old(created) || (old(script) != [] && old(script)[0].delivered)) && (ok ==> created)
    {
      var turn := NextTurn();
      Land(turn.before);
      if turn.delivered { created := true; }
      Land(turn.after);
      ok := turn.delivered && turn.replied;
    }

    /** The rows in the order of their versions, as they were when the request arrived. */
    method ReadHistory() returns (r: Result<seq<Row>, ()>)
      requires Valid()
      modifies `script, `rows
      ensures Valid() && Keeps(old(rows), rows)
      ensures r.Ok? ==> Ordered(r.value) && Keeps(old(rows), r.value) && Keeps(r.value, rows)
      ensures script == Rest(old(script))
      ensures IsSmooth(old(script), 1) ==> r == Ok(old(rows)) && rows == old(rows)
    {
      var turn := NextTurn();
      Land(turn.before);
      var seen := rows;
      Land(turn.after);
      return if turn.delivered && turn.replied then Ok(seen) else Err(());
    }

    /** One guarded request, sent once. A reply of success means that it took effect. */
    method Execute(request: Guarded) returns (ok: bool)
      requires Valid()
      modifies `script, `rows, `requests
      ensures Valid() && Keeps(old(rows), rows)
      ensures requests == old(requests) + [request]
      ensures ok ==> RowOf(request.migration) in rows
      ensures script == Rest(old(script))
      ensures IsSmooth(old(script), 1) && old(rows) == request.expected && !HasVersion(old(rows), request.migration.version) ==>
        ok && rows == Inserted(old(rows), RowOf(request.migration))
    {
      requests := requests + [request];
      var turn := NextTurn();
      Land(turn.before);
      var passed := turn.delivered && Passes(rows, request.expected) && !HasVersion(rows, request.migration.version);
      if passed { Insert(RowOf(request.migration)); }
      Land(turn.after);
      ok := passed && turn.replied;
    }
  }

  // ---------------------------------------------------------------------------------------------
  // The loop
  // ---------------------------------------------------------------------------------------------

  datatype DeployError = Unreachable | InvalidRows | InvalidHistory(error: HistoryError) | Failed(version: string)

  /** The requests for everything the read history lacks: each expects that history and the migrations before it. */
  function Plan(ms: seq<Migration>, read: seq<Row>): seq<Guarded>
    requires |read| <= |ms|
  {
    seq(|ms| - |read|, i requires 0 <= i < |ms| - |read| => Guarded(read + RowsOf(ms[|read|..|read| + i]), ms[|read| + i]))
  }

  /** The deployer's copy of the history, what it has sent and what it has applied, before migration `k`. */
  function KnownAt(ms: seq<Migration>, read: seq<Row>, k: nat): seq<Row>
    requires |read| <= |ms| && k <= |ms|
  {
    if k <= |read| then read else read + RowsOf(ms[|read|..k])
  }

  function SentAt(ms: seq<Migration>, read: seq<Row>, k: nat): seq<Guarded>
    requires |read| <= |ms| && k <= |ms|
  {
    if k <= |read| then [] else Plan(ms, read)[..k - |read|]
  }

  function AppliedAt(ms: seq<Migration>, read: seq<Row>, k: nat): seq<string>
    requires |read| <= |ms| && k <= |ms|
  {
    if k <= |read| then [] else VersionsOf(ms)[|read|..k]
  }

  predicate WellFormedRows(rows: seq<Row>) {
    forall i :: 0 <= i < |rows| ==> IsRow(rows[i])
  }

  /** What is deployed on: the history, with its objects created where they were missing, if the checkout accepts it. */
  method ReadValid(api: ManagementApi, checkout: Checkout) returns (r: Result<seq<Row>, DeployError>)
    requires api.Valid()
    modifies api
    ensures api.Valid() && Keeps(old(api.rows), api.rows) && api.requests == old(api.requests)
    ensures r.Err? ==> !r.error.Failed?
    ensures r.Ok? ==> api.created && ValidateHistory(checkout, r.value).Ok?
    ensures r.Ok? ==> Keeps(old(api.rows), r.value) && Keeps(r.value, api.rows)
    ensures IsSmooth(old(api.script), |checkout.migrations| + 2) && WellFormedRows(old(api.rows))
            && ValidateHistory(checkout, old(api.rows)).Ok? ==>
      r == Ok(old(api.rows)) && api.rows == old(api.rows) && IsSmooth(api.script, |checkout.migrations|)
  {
    hide Ordered, ValidateHistory, WellFormedRows, IsSmooth, Rest, Inserted;
    if IsSmooth(api.script, |checkout.migrations| + 2) {
      SmoothStart(api.script, |checkout.migrations|);
      SmoothFewer(Rest(api.script), |checkout.migrations| + 1);
    }
    if !api.created {
      var bootstrapped := api.Bootstrap();
      if !bootstrapped { return Err(Unreachable); }
    }
    var history := api.ReadHistory();
    if history.Err? { return Err(Unreachable); }
    if !WellFormedRows(history.value) { return Err(InvalidRows); }
    var valid := ValidateHistory(checkout, history.value);
    return if valid.Err? then Err(InvalidHistory(valid.error)) else Ok(history.value);
  }

  /** Deploy what the history lacks. Whatever others do meanwhile, the requests sent are a first part of the plan for
      the history that was read, each sent once; nothing is sent to a history the checkout does not accept; and
      success means that the whole plan was sent, that exactly its versions are returned in order, and that the
      history now holds every version of the checkout. When nobody interferes and every request is answered, an
      acceptable history makes it succeed: the history is then that one with the missing rows after it. */
  method Deploy(api: ManagementApi, checkout: Checkout)
    returns (r: Result<seq<string>, DeployError>, ghost read: seq<Row>)
    requires api.Valid() && Ascending(VersionsOf(checkout.migrations))
    modifies api
    ensures api.Valid() && Keeps(old(api.rows), api.rows)
    ensures |read| <= |checkout.migrations|
    ensures old(api.requests) <= api.requests <= old(api.requests) + Plan(checkout.migrations, read)
    ensures r.Err? && !r.error.Failed? ==> api.requests == old(api.requests)
    ensures r.Ok? || r.error.Failed? ==> ValidateHistory(checkout, read).Ok? && Keeps(old(api.rows), read)
    ensures r.Ok? ==> api.requests == old(api.requests) + Plan(checkout.migrations, read) && api.created
    ensures r.Ok? ==> r.value == VersionsOf(checkout.migrations)[|read|..]
    ensures r.Ok? ==> forall i :: 0 <= i < |checkout.migrations| ==> HasVersion(api.rows, checkout.migrations[i].version)
    ensures IsSmooth(old(api.script), |checkout.migrations| + 2) && WellFormedRows(old(api.rows))
            && ValidateHistory(checkout, old(api.rows)).Ok? ==>
      && r == Ok(VersionsOf(checkout.migrations)[|read|..]) && read == old(api.rows)
      && api.rows == read + RowsOf(checkout.migrations[|read|..])
  {
    hide KnownAt, SentAt, AppliedAt, Plan, Ordered, ValidateHistory, IsPrefix, HasVersion, WellFormedRows, Ascending;
    hide IsSmooth, Rest, Inserted, RowsOf, VersionsOf, Passes, RowVersions;
    ghost var smooth := IsSmooth(api.script, |checkout.migrations| + 2) && WellFormedRows(api.rows)
                        && ValidateHistory(checkout, api.rows).Ok?;
    var ms := checkout.migrations;
    var history := ReadValid(api, checkout);
    if history.Err? { return Err(history.error), []; }
    var known := history.value;
    ValidExactlyForPrefix(checkout, known);
    PrefixFits(checkout, known);
    read := known;
    var applied: seq<string> := [];
    ghost var sent: seq<Guarded> := [];
    AtStart(ms, read);
    for k := 0 to |ms|
      invariant api.Valid() && api.created && Keeps(old(api.rows), api.rows) && Keeps(known, api.rows)
      invariant known == KnownAt(ms, read, k) && applied == AppliedAt(ms, read, k) && sent == SentAt(ms, read, k)
      invariant api.requests == old(api.requests) + sent && sent <= Plan(ms, read)
      invariant smooth ==> api.rows == known && IsSmooth(api.script, |ms| - k) && read == old(api.rows)
    {
      SkipsExactlyRead(checkout, read, k);
      OneMigration(ms, read, k);
      if smooth { SmoothOn(api.script, |ms| - k); }
      if !HasVersion(known, ms[k].version) {
        KnownIsBelow(checkout, read, k);
        InsertedLast(known, RowOf(ms[k]));
        var request := Guarded(known, ms[k]);
        ghost var before := sent;
        var ok := api.Execute(request);
        sent := sent + [request];
        Assoc(old(api.requests), before, [request]);
        if !ok { return Err(Failed(ms[k].version)), read; }
        known := known + [RowOf(ms[k])];
        applied := applied + [ms[k].version];
      }
    }
    AtEnd(checkout, read, api.rows);
    return Ok(applied), read;
  }

  /** Enough for the bootstrap, the read and one request a migration. */
  lemma SmoothStart(script: seq<Turn>, n: nat)
    requires IsSmooth(script, n + 2)
    ensures IsSmooth(script, 1) && IsSmooth(Rest(script), 1) && IsSmooth(Rest(script), n + 1)
    ensures IsSmooth(Rest(Rest(script)), n)
  {}

  lemma SmoothFewer(script: seq<Turn>, n: nat)
    ensures IsSmooth(script, n) ==> forall k: nat :: k <= n ==> IsSmooth(script, k)
  {}

  lemma {:induction false} InsertedLast(rows: seq<Row>, row: Row)
    requires forall i :: 0 <= i < |rows| ==> Less(rows[i].version, row.version)
    ensures Inserted(rows, row) == rows + [row]
  {
    if rows != [] {
      if Less(row.version, rows[0].version) { LessTransitive(row.version, rows[0].version, row.version); }
      LessIrreflexive(row.version);
      InsertedLast(rows[1..], row);
      assert rows == [rows[0]] + rows[1..];
    }
  }

  /** The deployer's copy lists what is before the migration. */
  lemma KnownIsBelow(checkout: Checkout, read: seq<Row>, k: nat)
    requires Ascending(VersionsOf(checkout.migrations)) && IsPrefix(checkout, read) && k < |checkout.migrations|
    requires !HasVersion(KnownAt(checkout.migrations, read, k), checkout.migrations[k].version)
    ensures forall i :: 0 <= i < |KnownAt(checkout.migrations, read, k)| ==>
      Less(KnownAt(checkout.migrations, read, k)[i].version, checkout.migrations[k].version)
  {
    SkipsExactlyRead(checkout, read, k);
    var ms := checkout.migrations;
    var known := KnownAt(ms, read, k);
    forall i | 0 <= i < |known| ensures Less(known[i].version, ms[k].version) {
      assert known[i].version == VersionsOf(ms)[i] && VersionsOf(ms)[k] == ms[k].version;
    }
  }

  lemma AtStart(ms: seq<Migration>, read: seq<Row>)
    requires |read| <= |ms|
    ensures KnownAt(ms, read, 0) == read && SentAt(ms, read, 0) == [] && AppliedAt(ms, read, 0) == []
    ensures [] <= Plan(ms, read)
  {}

  /** The loop skips a migration exactly when it is one of those that were read. */
  lemma SkipsExactlyRead(checkout: Checkout, read: seq<Row>, k: nat)
    requires Ascending(VersionsOf(checkout.migrations)) && IsPrefix(checkout, read) && k < |checkout.migrations|
    ensures HasVersion(KnownAt(checkout.migrations, read, k), checkout.migrations[k].version) <==> k < |read|
  {
    var ms := checkout.migrations;
    var known := KnownAt(ms, read, k);
    if k < |read| {
      assert known[k].version == ms[k].version;
    } else {
      forall i | 0 <= i < |known| ensures known[i].version != ms[k].version {
        assert known[i].version == VersionsOf(ms)[i];
        if known[i].version == ms[k].version { AscendingDistinct(VersionsOf(ms), i, k); }
      }
    }
  }

  lemma OneMigration(ms: seq<Migration>, read: seq<Row>, k: nat)
    requires |read| <= |ms| && k < |ms|
    ensures SentAt(ms, read, k + 1) <= Plan(ms, read)
    ensures if k < |read| then
        && KnownAt(ms, read, k + 1) == KnownAt(ms, read, k)
        && SentAt(ms, read, k + 1) == SentAt(ms, read, k)
        && AppliedAt(ms, read, k + 1) == AppliedAt(ms, read, k)
      else
        && KnownAt(ms, read, k + 1) == KnownAt(ms, read, k) + [RowOf(ms[k])]
        && SentAt(ms, read, k + 1) == SentAt(ms, read, k) + [Guarded(KnownAt(ms, read, k), ms[k])]
        && AppliedAt(ms, read, k + 1) == AppliedAt(ms, read, k) + [ms[k].version]
  {
    KnownGrows(ms, read, k);
    SentGrows(ms, read, k);
    AppliedGrows(ms, read, k);
  }

  lemma KnownGrows(ms: seq<Migration>, read: seq<Row>, k: nat)
    requires |read| <= |ms| && k < |ms|
    ensures KnownAt(ms, read, k + 1) == if k < |read| then KnownAt(ms, read, k) else KnownAt(ms, read, k) + [RowOf(ms[k])]
  {
    if k >= |read| {
      assert RowsOf(ms[|read|..k + 1]) == RowsOf(ms[|read|..k]) + [RowOf(ms[k])];
      Assoc(read, RowsOf(ms[|read|..k]), [RowOf(ms[k])]);
      assert k == |read| ==> read + RowsOf(ms[|read|..k]) == read;
    }
  }

  lemma SentGrows(ms: seq<Migration>, read: seq<Row>, k: nat)
    requires |read| <= |ms| && k < |ms|
    ensures SentAt(ms, read, k + 1) <= Plan(ms, read)
    ensures SentAt(ms, read, k + 1)
         == if k < |read| then SentAt(ms, read, k) else SentAt(ms, read, k) + [Guarded(KnownAt(ms, read, k), ms[k])]
  {
    if k >= |read| {
      var plan := Plan(ms, read);
      assert plan[k - |read|] == Guarded(KnownAt(ms, read, k), ms[k]) by {
        assert k == |read| ==> read + RowsOf(ms[|read|..k]) == read;
      }
      assert plan[..k + 1 - |read|] == plan[..k - |read|] + [plan[k - |read|]];
    }
  }

  lemma AppliedGrows(ms: seq<Migration>, read: seq<Row>, k: nat)
    requires |read| <= |ms| && k < |ms|
    ensures AppliedAt(ms, read, k + 1) == if k < |read| then AppliedAt(ms, read, k) else AppliedAt(ms, read, k) + [ms[k].version]
  {}

  lemma AtEnd(checkout: Checkout, read: seq<Row>, rows: seq<Row>)
    requires IsPrefix(checkout, read)
    ensures
      var ms := checkout.migrations;
      && KnownAt(ms, read, |ms|) == read + RowsOf(ms[|read|..])
      && SentAt(ms, read, |ms|) == Plan(ms, read)
      && AppliedAt(ms, read, |ms|) == VersionsOf(ms)[|read|..]
      && (Keeps(KnownAt(ms, read, |ms|), rows) ==> forall i :: 0 <= i < |ms| ==> HasVersion(rows, ms[i].version))
  {
    var ms := checkout.migrations;
    var known := KnownAt(ms, read, |ms|);
    if Keeps(known, rows) {
      forall i | 0 <= i < |ms| ensures HasVersion(rows, ms[i].version) {
        assert known[i].version == ms[i].version;
        assert known[i] in rows;
      }
    }
  }

  lemma PlanAt(ms: seq<Migration>, read: seq<Row>, i: nat)
    requires |read| <= |ms| && i < |ms| - |read|
    ensures |Plan(ms, read)| == |ms| - |read|
    ensures Plan(ms, read)[i] == Guarded(read + RowsOf(ms[|read|..|read| + i]), ms[|read| + i])
    ensures |Plan(ms, read)[i].expected| == |read| + i
    ensures forall j :: |read| <= j < |read| + i ==> Plan(ms, read)[i].expected[j] == RowOf(ms[j])
    ensures forall j :: 0 <= j < |read| ==> Plan(ms, read)[i].expected[j] == read[j]
  {}

  /** What a request of the plan expects are the rows of the migrations before it. */
  lemma ExpectedBefore(checkout: Checkout, read: seq<Row>, i: nat)
    requires IsPrefix(checkout, read) && |read| <= |checkout.migrations| && i < |checkout.migrations| - |read|
    ensures
      var ms := checkout.migrations;
      RowVersions(Plan(ms, read)[i].expected) == VersionsOf(ms)[..|read| + i]
  {
    var ms := checkout.migrations;
    PrefixVersions(checkout, read);
    PlanAt(ms, read, i);
    hide Plan, IsPrefix;
    var known := Plan(ms, read)[i].expected;
    forall j | 0 <= j < |known| ensures known[j].version == ms[j].version {
      if j < |read| { assert RowVersions(read)[j] == ms[j].version; }
    }
  }

  lemma ExpectedAreRows(checkout: Checkout, read: seq<Row>, i: nat)
    requires IsCheckout(checkout) && |read| <= |checkout.migrations| && AllRows(read)
    requires i < |checkout.migrations| - |read|
    ensures AllRows(Plan(checkout.migrations, read)[i].expected)
  {
    hide IsRow, FromFile, Ascending, Plan, RowOf;
    PlanAt(checkout.migrations, read, i);
    var known := Plan(checkout.migrations, read)[i].expected;
    forall j | 0 <= j < |known| ensures IsRow(known[j]) {}
  }

  /** Every request of the plan is one that the protocol may have in flight, when no file of the checkout leaves its
      COMMIT in its body: it takes the lock, checks the guard, does not commit early, and names a version after
      everything it expects. */
  lemma PlanIsSound(checkout: Checkout, read: seq<Row>, i: nat)
    requires IsCheckout(checkout) && Clean(checkout) && IsPrefix(checkout, read) && AllRows(read)
    requires i < |checkout.migrations| - |read|
    ensures
      var r := Plan(checkout.migrations, read)[i];
      SoundRequest(Posted(r, ReadingOf(r)))
  {
    hide IsRow, IsPrefix, SoundRequest, IsCheckout, Clean, AllRows, FromFile, Plan, ReadingOf;
    PrefixFits(checkout, read);
    PlanAt(checkout.migrations, read, i);
    ExpectedBefore(checkout, read, i);
    ExpectedAreRows(checkout, read, i);
    var r := Plan(checkout.migrations, read)[i];
    var p := Posted(r, ReadingOf(r));
    ReadIsRight(p);
    SentIsSound(checkout, r.expected, p);
  }

  lemma ReadIsRight(p: Posted)
    requires p.read == ReadingOf(p.asked)
    ensures ReadRightly(p)
  {}
}
