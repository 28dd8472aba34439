/** Any number of deployers against one production database: every interleaving of their steps and of the statements
    that the database executes for them, with requests that are lost, delayed past the sender's death, or executed more
    than once. */
module Deployment {
  import opened Text
  import opened Transaction
  import opened DeploymentText
  import opened RequestReading
  import opened AtomicRequest
  import opened Versions
  import opened MigrationFiles
  import opened History

  /** A guarded request for one migration. */
  datatype Guarded = Guarded(expected: seq<Row>, migration: Migration) {
    function Sql(): string {
      Request(expected, migration.body, RowOf(migration))
    }
  }

  /** What the database makes of a text: whether it takes the lock, what its guard compares with the table, whether it
      runs to its end as one transaction or commits before its end, and the row that its receipt writes. */
  datatype Reading = Reading(locks: bool, guard: Option<Comparison>, whole: bool, early: bool, row: Option<Row>)

  function ReadingOf(r: Guarded): Reading {
    Reading(TakesLock(r.Sql()), GuardIn(r.Sql()), IsAtomic(r.Sql()), CommitsEarly(r.Sql()), RowIn(r.Sql()))
  }

  /** A request that was sent, and how the database reads it. */
  datatype Posted = Posted(asked: Guarded, read: Reading)

  predicate ReadRightly(p: Posted) {
    p.read == ReadingOf(p.asked)
  }

  datatype Phase = Starting | Deploying | Waiting(request: nat) | Finished

  /** A running deployer: `known` is its copy of the history, `start` how many rows of it were read, and `reported`
      the versions it has applied since. */
  datatype Deployer = Deployer(checkout: Checkout, phase: Phase, start: nat, known: seq<Row>, reported: seq<string>)

  /** Where the database stands in executing a request: before the lock, before the guard, before the body, after the
      body; or after a COMMIT of the body, with the receipt still to come. */
  datatype Stage = AtLock | AtGuard | AtBody | Written | Landed

  /** One execution of a request; `holds` says whether its transaction has the deployment lock. */
  datatype Session = Session(request: nat, stage: Stage, holds: bool)

  /** The database and everything in flight. `applied` lists the migration bodies that took effect, in order;
      `committed` the requests whose receipt was committed at least once. */
  datatype World = World(
    created: bool,
    table: Table,
    applied: seq<Migration>,
    requests: seq<Posted>,
    committed: set<nat>,
    sessions: map<nat, Session>,
    deployers: map<nat, Deployer>)

  /** The body comes from a file that was accepted. */
  ghost predicate FromFile(m: Migration) {
    exists sql :: Unwrap(sql) == Ok(m.body)
  }

  /** From one whose COMMIT is not commented out. */
  ghost predicate WholeFile(m: Migration) {
    exists sql :: Unwrap(sql) == Ok(m.body) && !CommitCommentedOut(sql)
  }

  /** From one that leaves its own COMMIT in the body. */
  ghost predicate LeftCommit(m: Migration) {
    exists sql :: Unwrap(sql) == Ok(m.body) && LeavesCommit(sql)
  }

  /** From one whose COMMIT is commented out and swallows the receipt: no COMMIT of the request is left whole. */
  ghost predicate Swallowing(m: Migration) {
    exists sql :: Unwrap(sql) == Ok(m.body) && CommitCommentedOut(sql) && !LeavesCommit(sql)
  }

  ghost predicate IsCheckout(c: Checkout) {
    && Ascending(VersionsOf(c.migrations))
    && forall i :: 0 <= i < |c.migrations| ==> IsRow(RowOf(c.migrations[i])) && FromFile(c.migrations[i])
  }

  /** No file of the checkout leaves its COMMIT in the body. */
  ghost predicate Clean(c: Checkout) {
    forall i :: 0 <= i < |c.migrations| ==> !LeftCommit(c.migrations[i])
  }

  ghost predicate AllRows(rows: seq<Row>) {
    forall i :: 0 <= i < |rows| ==> IsRow(rows[i])
  }

  /** The next migration to deploy: the first one whose version is not in the known history. */
  ghost predicate IsNext(d: Deployer, k: nat) {
    && k < |d.checkout.migrations|
    && d.checkout.migrations[k].version !in RowVersions(d.known)
    && forall i :: 0 <= i < k ==> d.checkout.migrations[i].version in RowVersions(d.known)
  }

  /** The request that a session executes. */
  function Executed(w: World, s: nat): Posted
    requires s in w.sessions && w.sessions[s].request < |w.requests|
  {
    w.requests[w.sessions[s].request]
  }

  ghost predicate At(w: World, s: nat, stage: Stage) {
    s in w.sessions && w.sessions[s].stage == stage && w.sessions[s].request < |w.requests|
  }

  ghost predicate MayInsert(w: World, s: nat)
    requires s in w.sessions && w.sessions[s].request < |w.requests|
  {
    Executed(w, s).read.row.Some? && Executed(w, s).read.row.value.version !in w.table
  }

  function WithRow(table: Table, row: Row): Table {
    table[row.version := row.sha256]
  }

  datatype Step =
    | Start(id: nat, checkout: Checkout)
    | Bootstrap
    | Read(id: nat, rows: seq<Row>)
    | Send(id: nat, k: nat, request: Posted)
    | Open(s: nat, i: nat)
    | TakeLock(s: nat)
    | CheckGuard(s: nat)
    | Write(s: nat)
    | Commit(s: nat)
    | CommitEarly(s: nat)
    | CommitReceipt(s: nat)
    | Abort(s: nat)
    | Reply(id: nat)
    | Finish(id: nat)
    | Crash(id: nat)

  ghost predicate Enabled(w: World, step: Step) {
    match step
    case Start(id, checkout) => id !in w.deployers && IsCheckout(checkout)
    case Bootstrap => true
    case Read(id, rows) => id in w.deployers && w.deployers[id].phase == Starting && w.created && Lists(rows, w.table)
    case Send(id, k, p) =>
      id in w.deployers && w.deployers[id].phase == Deploying && IsNext(w.deployers[id], k)
      && p.asked == Guarded(w.deployers[id].known, w.deployers[id].checkout.migrations[k])
    // A request may arrive at any time, and more than once.
    case Open(s, i) => s !in w.sessions && i < |w.requests|
    // The advisory lock waits while another transaction has it; a text that does not ask for it does not wait.
    case TakeLock(s) =>
      At(w, s, AtLock) && (Executed(w, s).read.locks ==> forall u :: u in w.sessions ==> !w.sessions[u].holds)
    case CheckGuard(s) =>
      At(w, s, AtGuard) && w.created
      && (Executed(w, s).read.guard.Some? ==> Agrees(w.table, Executed(w, s).read.guard.value))
    case Write(s) => At(w, s, AtBody)
    // The primary key refuses a row that is there; a receipt that writes no row fails.
    case Commit(s) => At(w, s, Written) && Executed(w, s).read.whole && MayInsert(w, s)
    case CommitEarly(s) => At(w, s, Written) && Executed(w, s).read.early
    case CommitReceipt(s) => At(w, s, Landed) && MayInsert(w, s)
    case Abort(s) => s in w.sessions
    case Reply(id) =>
      id in w.deployers && w.deployers[id].phase.Waiting? && w.deployers[id].phase.request in w.committed
      && w.deployers[id].phase.request < |w.requests|
    case Finish(id) =>
      id in w.deployers && w.deployers[id].phase == Deploying && forall k :: !IsNext(w.deployers[id], k)
    case Crash(id) => id in w.deployers
  }

  /** The database reads what is sent. */
  ghost predicate ReadsSent(step: Step) {
    step.Send? ==> ReadRightly(step.request)
  }

  function AfterRead(d: Deployer, rows: seq<Row>): Deployer {
    Deployer(d.checkout, Deploying, |rows|, rows, [])
  }

  function AfterReply(d: Deployer, m: Migration): Deployer {
    Deployer(d.checkout, Deploying, d.start, d.known + [RowOf(m)], d.reported + [m.version])
  }

  /** Body and receipt take effect together, and the transaction gives up its lock. */
  function Committed(w: World, s: nat): World
    requires s in w.sessions && w.sessions[s].request < |w.requests| && Executed(w, s).read.row.Some?
  {
    w.(table := WithRow(w.table, Executed(w, s).read.row.value), applied := w.applied + [Executed(w, s).asked.migration],
       committed := w.committed + {w.sessions[s].request}, sessions := w.sessions - {s})
  }

  function Moved(w: World, s: nat, stage: Stage, holds: bool): World
    requires s in w.sessions
  {
    w.(sessions := w.sessions[s := Session(w.sessions[s].request, stage, holds)])
  }

  ghost function Apply(w: World, step: Step): World
    requires Enabled(w, step)
  {
    match step
    case Start(id, checkout) => w.(deployers := w.deployers[id := Deployer(checkout, Starting, 0, [], [])])
    // The history objects are created if they are missing; doing it again changes nothing.
    case Bootstrap => w.(created := true)
    // A history with malformed rows, or one the checkout does not accept, stops the deployer before any write.
    case Read(id, rows) =>
      var d := w.deployers[id];
      if AllRows(rows) && ValidateHistory(d.checkout, rows).Ok? then w.(deployers := w.deployers[id := AfterRead(d, rows)])
      else w.(deployers := w.deployers - {id})
    case Send(id, k, p) =>
      var d := w.deployers[id];
      w.(requests := w.requests + [p],
         deployers := w.deployers[id := d.(phase := Waiting(|w.requests|))])
    case Open(s, i) => w.(sessions := w.sessions[s := Session(i, AtLock, false)])
    case TakeLock(s) => Moved(w, s, AtGuard, Executed(w, s).read.locks)
    case CheckGuard(s) => Moved(w, s, AtBody, w.sessions[s].holds)
    // What the statements write is not visible before it is committed.
    case Write(s) => Moved(w, s, Written, w.sessions[s].holds)
    case Commit(s) => Committed(w, s)
    // A COMMIT in the body commits it without the receipt, and ends the transaction that has the lock.
    case CommitEarly(s) => Moved(w, s, Landed, false).(applied := w.applied + [Executed(w, s).asked.migration])
    case CommitReceipt(s) =>
      w.(table := WithRow(w.table, Executed(w, s).read.row.value), committed := w.committed + {w.sessions[s].request},
         sessions := w.sessions - {s})
    // Whatever fails, by itself or with the connection, ends the session and undoes what it had not committed.
    case Abort(s) => w.(sessions := w.sessions - {s})
    case Reply(id) =>
      var d := w.deployers[id];
      w.(deployers := w.deployers[id := AfterReply(d, w.requests[d.phase.request].asked.migration)])
    case Finish(id) => w.(deployers := w.deployers[id := w.deployers[id].(phase := Finished)])
    case Crash(id) => w.(deployers := w.deployers - {id})
  }

  // ---------------------------------------------------------------------------------------------
  // Invariants
  // ---------------------------------------------------------------------------------------------

  /** The guard compares the table with what the deployer expects. */
  predicate Guards(p: Posted) {
    p.read.guard == Some(Comparison(|p.asked.expected|, p.asked.expected))
  }

  /** A receipt that can be committed writes the version and the checksum of the migration. */
  predicate IsHonest(p: Posted) {
    p.read.row.Some? && (p.read.whole || p.read.early) ==> p.read.row.value == RowOf(p.asked.migration)
  }

  /** Every request in flight takes the lock, checks its guard, does not commit before its end and writes its own row;
      and it names a version after everything it expects. */
  ghost predicate SoundRequest(p: Posted) {
    && p.read.locks && Guards(p) && !p.read.early && IsHonest(p)
    && Ascending(RowVersions(p.asked.expected))
    && forall j :: 0 <= j < |p.asked.expected| ==> Less(p.asked.expected[j].version, p.asked.migration.version)
  }

  ghost predicate SoundRequests(w: World) {
    forall i :: 0 <= i < |w.requests| ==> SoundRequest(w.requests[i])
  }

  /** The table is what it was at first and one row for every applied body, in ascending order of versions. */
  ghost predicate SoundLedger(base: Table, w: World) {
    && Ascending(VersionsOf(w.applied))
    && (forall v :: v in w.table <==> v in base || v in VersionsOf(w.applied))
    && (forall v :: v in base ==> v in w.table && w.table[v] == base[v])
    && (forall i :: 0 <= i < |w.applied| ==> Holds(w.table, RowOf(w.applied[i])))
    && forall v, i :: v in base && 0 <= i < |w.applied| ==> Less(v, w.applied[i].version)
  }

  ghost predicate SoundCommitted(w: World) {
    forall i :: i in w.committed ==> i < |w.requests| && Holds(w.table, RowOf(w.requests[i].asked.migration))
  }

  /** A session past the lock has it, alone; and what it found past the guard is still so. */
  ghost predicate SoundSession(w: World, x: Session) {
    && x.request < |w.requests|
    && x.stage != Landed
    && (x.stage != AtLock ==> x.holds)
    && (x.stage == AtBody || x.stage == Written ==> GuardPasses(w.table, w.requests[x.request].asked.expected))
  }

  ghost predicate SoundSessions(w: World) {
    && (forall s :: s in w.sessions ==> SoundSession(w, w.sessions[s]))
    && (forall s, u :: s in w.sessions && u in w.sessions && s != u ==> !(w.sessions[s].holds && w.sessions[u].holds))
  }

  /** A deployer that has read the history knows a prefix of its checkout, all of it in the table, and has reported
      exactly what it added. */
  ghost predicate SoundDeployer(w: World, d: Deployer) {
    && IsCheckout(d.checkout)
    && (d.phase != Starting ==>
        && AllRows(d.known)
        && d.start <= |d.known| <= |d.checkout.migrations|
        && RowVersions(d.known) == VersionsOf(d.checkout.migrations)[..|d.known|]
        && d.reported == VersionsOf(d.checkout.migrations)[d.start..|d.known|]
        && forall i :: 0 <= i < |d.known| ==> Holds(w.table, d.known[i]))
    && (d.phase.Waiting? ==>
        && d.phase.request < |w.requests|
        && |d.known| < |d.checkout.migrations|
        && w.requests[d.phase.request].asked.migration == d.checkout.migrations[|d.known|])
    && (d.phase.Finished? ==> |d.known| == |d.checkout.migrations|)
  }

  ghost predicate SoundDeployers(w: World) {
    forall id :: id in w.deployers ==> SoundDeployer(w, w.deployers[id])
  }

  /** Receipts are honest, and only a COMMIT in the body leaves one to be written by itself. */
  ghost predicate HonestRequests(w: World) {
    && (forall i :: 0 <= i < |w.requests| ==> IsHonest(w.requests[i]))
    && (forall s :: s in w.sessions ==> EarlySession(w, w.sessions[s]))
  }

  ghost predicate EarlySession(w: World, x: Session) {
    x.request < |w.requests| && (x.stage == Landed ==> w.requests[x.request].read.early)
  }

  /** What holds whatever the checkouts hold. */
  ghost predicate Informed(w: World) {
    SoundCommitted(w) && SoundDeployers(w) && HonestRequests(w)
  }

  /** What holds when all checkouts are clean. */
  ghost predicate Sound(base: Table, w: World) {
    SoundRequests(w) && SoundLedger(base, w) && SoundSessions(w) && Informed(w)
  }

  ghost predicate CleanDeployers(w: World) {
    forall id :: id in w.deployers ==> Clean(w.deployers[id].checkout)
  }

  /** No row is ever changed or removed. */
  ghost predicate Grows(t: Table, u: Table) {
    forall v :: v in t ==> v in u && u[v] == t[v]
  }

  lemma TableGrows(w: World, step: Step)
    requires Enabled(w, step)
    ensures Grows(w.table, Apply(w, step).table)
  {}

  // ---------------------------------------------------------------------------------------------
  // One step keeps them
  // ---------------------------------------------------------------------------------------------

  lemma NextIsPlace(w: World, d: Deployer, k: nat)
    requires SoundDeployer(w, d) && d.phase != Starting
    ensures IsNext(d, k) <==> k == |d.known| < |d.checkout.migrations|
  {
    hide IsCheckout, AllRows, Holds, Ascending;
    var versions := VersionsOf(d.checkout.migrations);
    assert Ascending(versions) by { CheckoutAscends(d.checkout); }
    FirstMissing(versions, |d.known|, k);
    if k < |versions| {
      assert forall i :: 0 <= i <= k ==> versions[i] == d.checkout.migrations[i].version;
    }
  }

  lemma CheckoutAscends(c: Checkout)
    requires IsCheckout(c)
    ensures Ascending(VersionsOf(c.migrations))
  {}

  lemma FirstMissing(versions: seq<string>, n: nat, k: nat)
    requires Ascending(versions) && n <= |versions|
    ensures (k < |versions| && versions[k] !in versions[..n] && forall i :: 0 <= i < k ==> versions[i] in versions[..n])
       <==> k == n < |versions|
  {
    assert forall i :: 0 <= i < n ==> versions[..n][i] == versions[i];
    if n < |versions| && versions[n] in versions[..n] {
      var i :| 0 <= i < n && versions[..n][i] == versions[n];
      AscendingDistinct(versions, i, n);
    }
  }

  /** The composed request of a migration from an accepted file, for a deployer that knows a prefix. */
  lemma SentIsSound(c: Checkout, known: seq<Row>, p: Posted)
    requires IsCheckout(c) && Clean(c) && AllRows(known) && |known| < |c.migrations|
    requires RowVersions(known) == VersionsOf(c.migrations)[..|known|]
    requires p.asked == Guarded(known, c.migrations[|known|]) && ReadRightly(p)
    ensures SoundRequest(p)
  {
    hide FromFile, LeftCommit, WholeFile, Swallowing, LeavesFragment, AllRows, Holds, Ascending, IsRow, IsCheckout, Clean;
    hide ReadRightly;
    var n := |known|;
    var m := c.migrations[n];
    var versions := VersionsOf(c.migrations);
    CheckoutAscends(c);
    CheckoutFile(c, n);
    CleanFile(c, n);
    SentShape(known, m, p);
    PrefixAscends(versions, n);
    forall j | 0 <= j < n ensures Less(known[j].version, m.version) {
      assert RowVersions(known)[j] == versions[j];
    }
  }

  lemma CheckoutFile(c: Checkout, k: nat)
    requires IsCheckout(c) && k < |c.migrations|
    ensures IsRow(RowOf(c.migrations[k])) && FromFile(c.migrations[k])
  {
    hide IsRow, FromFile, Ascending;
  }

  lemma CleanFile(c: Checkout, k: nat)
    requires Clean(c) && k < |c.migrations|
    ensures !LeftCommit(c.migrations[k])
  {
    hide LeftCommit;
  }

  /** How far the database gets with a request, and whether its receipt can be written, depends on the file of its
      migration; what is written is the row of the migration. */
  lemma SentShape(known: seq<Row>, m: Migration, p: Posted)
    requires AllRows(known) && IsRow(RowOf(m)) && FromFile(m) && p.asked == Guarded(known, m) && ReadRightly(p)
    ensures p.read.locks && Guards(p)
    ensures (p.read.whole <==> WholeFile(m)) && (p.read.early <==> LeftCommit(m)) && !(p.read.whole && p.read.early)
    ensures p.read.whole || p.read.early ==> p.read.row == if LeavesFragment(m.body) then None else Some(RowOf(m))
    ensures Swallowing(m) ==> !p.read.early && !p.read.whole
  {
    hide TakesLock, GuardIn, RowIn, CommitsEarly, IsAtomic, Unwrap, LeavesCommit, CommitCommentedOut, Request, IsRow;
    hide LeavesFragment;
    var sql :| Unwrap(sql) == Ok(m.body);
    RequestStarts(sql, known, RowOf(m));
    EarlyExactlyWhenLeft(sql, known, RowOf(m));
    AtomicExactlyWhenCommitted(sql, known, RowOf(m));
    LeavesIsCommented(sql);
    if LeftCommit(m) {
      var other :| Unwrap(other) == Ok(m.body) && LeavesCommit(other);
      EarlyExactlyWhenLeft(other, known, RowOf(m));
    }
    if WholeFile(m) {
      var other :| Unwrap(other) == Ok(m.body) && !CommitCommentedOut(other);
      AtomicExactlyWhenCommitted(other, known, RowOf(m));
    }
    if p.read.whole || p.read.early { ReceiptExactlyWhenNoFragment(sql, known, RowOf(m)); }
    if Swallowing(m) {
      var other :| Unwrap(other) == Ok(m.body) && CommitCommentedOut(other) && !LeavesCommit(other);
      EarlyExactlyWhenLeft(other, known, RowOf(m));
      AtomicExactlyWhenCommitted(other, known, RowOf(m));
    }
  }

  lemma PrefixAscends(s: seq<string>, n: nat)
    requires Ascending(s) && n <= |s|
    ensures Ascending(s[..n])
    ensures forall j :: 0 <= j < n < |s| ==> Less(s[j], s[n])
  {}

  lemma RequestsKept(w: World, step: Step)
    requires SoundRequests(w) && SoundDeployers(w) && CleanDeployers(w) && Enabled(w, step) && ReadsSent(step)
    ensures SoundRequests(Apply(w, step))
  {
    hide SoundRequest, Lists, GuardPasses, ValidateHistory, Clean, ReadRightly;
    if step.Send? {
      var d := w.deployers[step.id];
      NextIsPlace(w, d, step.k);
      SentIsSound(d.checkout, d.known, step.request);
    }
  }

  lemma SessionsKept(base: Table, w: World, step: Step)
    requires SoundRequests(w) && SoundSessions(w) && Enabled(w, step)
    ensures SoundSessions(Apply(w, step))
  {
    hide Lists, GuardPasses, ValidateHistory, IsCheckout, AllRows, IsNext;
    var u := Apply(w, step);
    OneHolder(w, step);
    forall s | s in u.sessions ensures SoundSession(u, u.sessions[s]) {
      SessionKept(w, step, s);
    }
  }

  /** The lock has one holder. */
  lemma OneHolder(w: World, step: Step)
    requires SoundSessions(w) && Enabled(w, step)
    ensures
      var u := Apply(w, step);
      forall s, v :: s in u.sessions && v in u.sessions && s != v ==> !(u.sessions[s].holds && u.sessions[v].holds)
  {
    hide Lists, GuardPasses, ValidateHistory, IsCheckout, AllRows, IsNext;
  }

  /** A commit is the holder's, so nobody else has passed the guard. */
  lemma SessionKept(w: World, step: Step, s: nat)
    requires SoundRequests(w) && SoundSessions(w) && Enabled(w, step) && s in Apply(w, step).sessions
    ensures SoundSession(Apply(w, step), Apply(w, step).sessions[s])
  {
    hide Lists, Agrees, ValidateHistory, IsCheckout, AllRows, IsNext, WithRow, IsHonest, Ascending;
    NeverBodyAlone(w, step);
    if step.Commit? {
      OthersWait(w, step.s, s);
    } else if s in w.sessions {
      SoundAt(w, s);
      hide SoundRequests, SoundSessions;
    }
  }

  lemma SoundAt(w: World, s: nat)
    requires SoundRequests(w) && SoundSessions(w) && s in w.sessions
    ensures SoundSession(w, w.sessions[s]) && SoundRequest(w.requests[w.sessions[s].request])
  {
    hide SoundRequest;
  }

  lemma OthersWait(w: World, holder: nat, s: nat)
    requires SoundSessions(w) && holder in w.sessions && s in w.sessions && s != holder
    requires w.sessions[holder].stage == Written && w.sessions[holder].request < |w.requests|
    requires Executed(w, holder).read.row.Some?
    ensures w.sessions[s].stage == AtLock && SoundSession(Committed(w, holder), w.sessions[s])
  {
    assert SoundSession(w, w.sessions[s]) && SoundSession(w, w.sessions[holder]);
  }

  /** Among sound requests no body is committed without its receipt, and no receipt by itself. */
  lemma NeverBodyAlone(w: World, step: Step)
    requires SoundRequests(w) && SoundSessions(w) && Enabled(w, step)
    ensures !step.CommitEarly? && !step.CommitReceipt?
  {
    hide Lists, GuardPasses;
    forall s | s in w.sessions ensures SoundSession(w, w.sessions[s]) && SoundRequest(w.requests[w.sessions[s].request]) {
      SoundAt(w, s);
    }
  }

  lemma LedgerKept(base: Table, w: World, step: Step)
    requires SoundRequests(w) && SoundSessions(w) && SoundLedger(base, w) && Enabled(w, step)
    ensures SoundLedger(base, Apply(w, step))
  {
    hide SoundLedger, Lists, GuardPasses, ValidateHistory, IsCheckout;
    if step.Commit? {
      CommittedLedger(base, w, step.s);
    } else {
      NeverBodyAlone(w, step);
      SameLedger(base, w, Apply(w, step));
    }
  }

  lemma SameLedger(base: Table, w: World, u: World)
    requires SoundLedger(base, w) && u.table == w.table && u.applied == w.applied
    ensures SoundLedger(base, u)
  {}

  lemma CommittedLedger(base: Table, w: World, s: nat)
    requires SoundRequests(w) && SoundSessions(w) && SoundLedger(base, w) && Enabled(w, Commit(s))
    ensures SoundLedger(base, Committed(w, s))
  {
    hide SoundLedger, GuardPasses;
    var r := Executed(w, s).asked;
    assert SoundRequest(Executed(w, s)) && SoundSession(w, w.sessions[s]);
    AllBelow(w.table, r);
    LedgerAppend(base, w, Committed(w, s), r.migration);
  }

  /** What passes the guard is older than what the request adds. */
  lemma AllBelow(table: Table, r: Guarded)
    requires GuardPasses(table, r.expected) && Ascending(RowVersions(r.expected))
    requires forall j :: 0 <= j < |r.expected| ==> Less(r.expected[j].version, r.migration.version)
    ensures forall v :: v in table ==> Less(v, r.migration.version)
  {
    hide Less, GuardPasses;
    GuardCovers(table, r.expected);
    forall v | v in table ensures Less(v, r.migration.version) {
      var j :| 0 <= j < |r.expected| && RowVersions(r.expected)[j] == v;
    }
  }

  lemma LedgerAppend(base: Table, w: World, u: World, m: Migration)
    requires SoundLedger(base, w) && m.version !in w.table
    requires forall v :: v in w.table ==> Less(v, m.version)
    requires u.table == w.table[m.version := m.sha256] && u.applied == w.applied + [m]
    ensures SoundLedger(base, u)
  {
    var versions := VersionsOf(w.applied);
    assert forall j :: 0 <= j < |versions| ==> Holds(w.table, RowOf(w.applied[j]));
    AscendingAppend(versions, m.version);
    assert VersionsOf(u.applied) == versions + [m.version];
  }

  /** What a session that commits writes is the row of its migration. */
  lemma WritesOwnRow(w: World, s: nat)
    requires HonestRequests(w) && (Enabled(w, Commit(s)) || Enabled(w, CommitReceipt(s)))
    ensures Executed(w, s).read.row == Some(RowOf(Executed(w, s).asked.migration))
  {
    assert IsHonest(Executed(w, s));
  }

  lemma CommittedKept(w: World, step: Step)
    requires SoundCommitted(w) && HonestRequests(w) && Enabled(w, step)
    ensures SoundCommitted(Apply(w, step))
  {
    if step.Commit? || step.CommitReceipt? { WritesOwnRow(w, step.s); }
    hide Lists, ValidateHistory, IsCheckout, GuardPasses, HonestRequests, IsNext, AllRows;
  }

  lemma HonestKept(w: World, step: Step)
    requires HonestRequests(w) && SoundDeployers(w) && Enabled(w, step) && ReadsSent(step)
    ensures HonestRequests(Apply(w, step))
  {
    hide IsHonest, GuardPasses, Lists, ValidateHistory, IsCheckout, AllRows, SoundDeployer, SoundDeployers, ReadRightly;
    hide IsNext, Agrees, MayInsert, WithRow, IsCheckout, Compatible;
    if step.Send? { SentIsHonest(w, step.id, step.k, step.request); }
    var u := Apply(w, step);
    forall s | s in u.sessions ensures EarlySession(u, u.sessions[s]) {
      EarlyKept(w, step, s);
    }
  }

  lemma EarlyKept(w: World, step: Step, s: nat)
    requires HonestRequests(w) && Enabled(w, step) && s in Apply(w, step).sessions
    ensures EarlySession(Apply(w, step), Apply(w, step).sessions[s])
  {
    hide IsHonest, GuardPasses, Lists, ValidateHistory, IsCheckout, AllRows, IsNext, Agrees, MayInsert, WithRow;
    if s in w.sessions { assert EarlySession(w, w.sessions[s]); }
  }

  lemma SentIsHonest(w: World, id: nat, k: nat, p: Posted)
    requires SoundDeployers(w) && Enabled(w, Send(id, k, p)) && ReadRightly(p)
    ensures IsHonest(p)
  {
    hide IsNext, IsRow, AllRows, FromFile, ReadRightly, Swallowing, LeftCommit, WholeFile, IsCheckout, LeavesFragment;
    var d := w.deployers[id];
    assert SoundDeployer(w, d);
    NextFits(d, k);
    CheckoutFile(d.checkout, k);
    SentShape(d.known, d.checkout.migrations[k], p);
  }

  lemma NextFits(d: Deployer, k: nat)
    requires IsNext(d, k)
    ensures k < |d.checkout.migrations|
  {}

  lemma DeployersKept(w: World, step: Step)
    requires Informed(w) && Enabled(w, step)
    ensures SoundDeployers(Apply(w, step))
  {
    hide SoundDeployer, SoundCommitted, Lists, GuardPasses, ValidateHistory;
    TableGrows(w, step);
    var u := Apply(w, step);
    forall id | id in u.deployers ensures SoundDeployer(u, u.deployers[id]) {
      if id in w.deployers && u.deployers[id] == w.deployers[id] {
        DeployerGrows(w, u, w.deployers[id]);
      } else {
        DeployerMoves(w, step, id);
      }
    }
  }

  lemma DeployerGrows(w: World, u: World, d: Deployer)
    requires SoundDeployer(w, d) && Grows(w.table, u.table) && w.requests <= u.requests
    ensures SoundDeployer(u, d)
  {
    hide IsCheckout;
    forall i | 0 <= i < |d.known| && d.phase != Starting ensures Holds(u.table, d.known[i]) {
      assert Holds(w.table, d.known[i]);
    }
  }

  /** The deployer that takes the step. */
  lemma DeployerMoves(w: World, step: Step, id: nat)
    requires Informed(w) && Enabled(w, step)
    requires var u := Apply(w, step); id in u.deployers && !(id in w.deployers && u.deployers[id] == w.deployers[id])
    ensures SoundDeployer(Apply(w, step), Apply(w, step).deployers[id])
  {
    hide GuardPasses, Lists, ValidateHistory, SoundDeployer, SoundCommitted, SoundDeployers, IsNext, IsCheckout, AllRows;
    var u := Apply(w, step);
    TableGrows(w, step);
    match step {
      case Start(_, c) => StartMoves(u, c);
      case Read(_, rows) =>
        ReadMoves(w, id, rows);
        DeployerGrows(w, u, u.deployers[id]);
      case Send(_, k, p) => SendMoves(w, id, k, p);
      case Reply(_) =>
        ReplyMoves(w, id);
        DeployerGrows(w, u, u.deployers[id]);
      case Finish(_) => FinishMoves(w, id);
      case _ =>
    }
  }

  lemma StartMoves(w: World, c: Checkout)
    requires IsCheckout(c)
    ensures SoundDeployer(w, Deployer(c, Starting, 0, [], []))
  {
    hide IsCheckout;
  }

  lemma SendMoves(w: World, id: nat, k: nat, p: Posted)
    requires SoundDeployers(w) && Enabled(w, Send(id, k, p))
    ensures SoundDeployer(Apply(w, Send(id, k, p)), Apply(w, Send(id, k, p)).deployers[id])
  {
    var d := w.deployers[id];
    assert SoundDeployer(w, d);
    NextIsPlace(w, d, k);
    hide IsCheckout, AllRows, IsNext, Holds;
  }

  lemma FinishMoves(w: World, id: nat)
    requires SoundDeployers(w) && Enabled(w, Finish(id))
    ensures SoundDeployer(Apply(w, Finish(id)), Apply(w, Finish(id)).deployers[id])
  {
    var d := w.deployers[id];
    assert SoundDeployer(w, d);
    NextIsPlace(w, d, |d.known|);
    hide IsCheckout, AllRows, IsNext, Holds;
  }

  lemma ReadMoves(w: World, id: nat, rows: seq<Row>)
    requires SoundDeployers(w) && Enabled(w, Read(id, rows)) && AllRows(rows)
    requires ValidateHistory(w.deployers[id].checkout, rows).Ok?
    ensures SoundDeployer(w, AfterRead(w.deployers[id], rows))
  {
    var d := w.deployers[id];
    CheckoutAscends(d.checkout);
    hide ValidateHistory, IsCheckout, IsPrefix, AllRows;
    ValidExactlyForPrefix(d.checkout, rows);
    PrefixVersions(d.checkout, rows);
    PrefixFits(d.checkout, rows);
    assert VersionsOf(d.checkout.migrations)[|rows|..|rows|] == [];
  }

  lemma PrefixFits(c: Checkout, rows: seq<Row>)
    requires IsPrefix(c, rows)
    ensures |rows| <= |c.migrations|
  {}

  lemma ReplyMoves(w: World, id: nat)
    requires SoundDeployers(w) && SoundCommitted(w) && Enabled(w, Reply(id))
    ensures SoundDeployer(w, AfterReply(w.deployers[id], w.requests[w.deployers[id].phase.request].asked.migration))
  {
    var d := w.deployers[id];
    var n := |d.known|;
    var versions := VersionsOf(d.checkout.migrations);
    var m := d.checkout.migrations[n];
    assert IsRow(RowOf(m)) by { assert IsCheckout(d.checkout); }
    hide IsCheckout, IsRow;
    assert w.requests[d.phase.request].asked.migration == m;
    assert Holds(w.table, RowOf(m));
    OneMore(versions, d.start, n);
    assert RowVersions(d.known + [RowOf(m)]) == RowVersions(d.known) + [m.version];
  }

  lemma OneMore(versions: seq<string>, start: nat, n: nat)
    requires start <= n < |versions|
    ensures versions[..n] + [versions[n]] == versions[..n + 1]
    ensures versions[start..n] + [versions[n]] == versions[start..n + 1]
  {}

  lemma InformedKept(w: World, step: Step)
    requires Informed(w) && Enabled(w, step) && ReadsSent(step)
    ensures Informed(Apply(w, step))
  {
    hide SoundCommitted, SoundDeployers, HonestRequests, Enabled, Apply, ReadsSent;
    CommittedKept(w, step);
    DeployersKept(w, step);
    HonestKept(w, step);
  }

  lemma SoundKept(base: Table, w: World, step: Step)
    requires Sound(base, w) && CleanDeployers(w) && Enabled(w, step) && ReadsSent(step)
    ensures Sound(base, Apply(w, step))
  {
    hide SoundRequests, SoundLedger, SoundSessions, SoundCommitted, SoundDeployers, Enabled, Apply, CleanDeployers, ReadsSent;
    RequestsKept(w, step);
    SessionsKept(base, w, step);
    LedgerKept(base, w, step);
    InformedKept(w, step);
  }

  // ---------------------------------------------------------------------------------------------
  // Whole runs
  // ---------------------------------------------------------------------------------------------

  ghost predicate Next(w: World, u: World) {
    exists step :: Enabled(w, step) && ReadsSent(step) && u == Apply(w, step)
  }

  /** A run starts with any history and nothing in flight. */
  ghost predicate IsRun(run: seq<World>) {
    && run != []
    && run[0].applied == [] && run[0].requests == [] && run[0].committed == {}
    && run[0].sessions == map[] && run[0].deployers == map[]
    && forall i :: 0 <= i < |run| - 1 ==> Next(run[i], run[i + 1])
  }

  ghost predicate CleanRun(run: seq<World>) {
    forall i :: 0 <= i < |run| ==> CleanDeployers(run[i])
  }

  lemma LastStep(run: seq<World>, i: nat) returns (step: Step)
    requires IsRun(run) && 0 < i < |run|
    ensures Enabled(run[i - 1], step) && ReadsSent(step) && run[i] == Apply(run[i - 1], step)
  {
    hide Enabled, Apply, ReadsSent;
    assert Next(run[i - 1], run[(i - 1) + 1]);
    step :| Enabled(run[i - 1], step) && ReadsSent(step) && run[i] == Apply(run[i - 1], step);
  }

  lemma FirstWorld(run: seq<World>)
    requires IsRun(run)
    ensures Sound(run[0].table, run[0]) && Informed(run[0])
  {}

  lemma {:induction false} InformedThroughout(run: seq<World>, i: nat)
    requires IsRun(run) && i < |run|
    ensures Informed(run[i])
  {
    hide Enabled, Apply, ReadsSent, IsRun, Informed;
    if i == 0 {
      FirstWorld(run);
    } else {
      InformedThroughout(run, i - 1);
      var step := LastStep(run, i);
      InformedKept(run[i - 1], step);
    }
  }

  lemma CleanAt(run: seq<World>, i: nat)
    requires CleanRun(run) && i < |run|
    ensures CleanDeployers(run[i])
  {
    hide CleanDeployers;
  }

  lemma {:induction false} SoundThroughout(run: seq<World>, i: nat)
    requires IsRun(run) && CleanRun(run) && i < |run|
    ensures Sound(run[0].table, run[i])
  {
    hide Enabled, Apply, ReadsSent, IsRun, Sound, CleanDeployers, CleanRun;
    if i == 0 {
      FirstWorld(run);
    } else {
      CleanAt(run, i - 1);
      SoundThroughout(run, i - 1);
      var step := LastStep(run, i);
      SoundKept(run[0].table, run[i - 1], step);
    }
  }

  /** Exactly once: however deployers, sessions, crashes, losses, delays and duplicates interleave, as long as no file
      leaves its COMMIT in its body, the applied bodies ascend strictly in version, so none lands twice, and together
      with the rows of the start they are exactly the rows of the history table. */
  lemma ExactlyOnce(run: seq<World>, i: nat)
    requires IsRun(run) && CleanRun(run) && i < |run|
    ensures Ascending(VersionsOf(run[i].applied))
    ensures forall a, b :: 0 <= a < b < |run[i].applied| ==> run[i].applied[a].version != run[i].applied[b].version
    ensures forall v :: v in run[i].table <==> v in run[0].table || v in VersionsOf(run[i].applied)
    ensures forall v, a :: v in run[0].table && 0 <= a < |run[i].applied| ==> Less(v, run[i].applied[a].version)
    ensures forall a :: 0 <= a < |run[i].applied| ==> Holds(run[i].table, RowOf(run[i].applied[a]))
  {
    SoundThroughout(run, i);
    var versions := VersionsOf(run[i].applied);
    forall a, b | 0 <= a < b < |versions| ensures run[i].applied[a].version != run[i].applied[b].version {
      assert Less(versions[a], versions[b]);
      LessIrreflexive(versions[a]);
    }
  }

  /** In such runs every step leaves bodies and rows alone, or adds one body and its row together. */
  lemma BodyAndReceiptTogether(run: seq<World>, i: nat)
    requires IsRun(run) && CleanRun(run) && 0 < i < |run|
    ensures BothOrNeither(run[i - 1], run[i])
  {
    hide *;
    SoundThroughout(run, i - 1);
    var step := LastStep(run, i);
    SoundTogether(run[0].table, run[i - 1], step);
  }

  lemma SoundTogether(base: Table, w: World, step: Step)
    requires Sound(base, w) && Enabled(w, step)
    ensures BothOrNeither(w, Apply(w, step))
  {
    hide Enabled, Apply, SoundRequests, SoundSessions, SoundLedger, SoundCommitted, SoundDeployers, HonestRequests, BothOrNeither;
    NeverBodyAlone(w, step);
    StepTogether(w, step);
  }

  ghost predicate BothOrNeither(w: World, u: World) {
    || (u.applied == w.applied && u.table == w.table)
    || exists m: Migration :: m.version !in w.table && BothAdded(w, u, m)
  }

  ghost predicate BothAdded(w: World, u: World, m: Migration) {
    u.applied == w.applied + [m] && u.table == w.table[m.version := m.sha256]
  }

  lemma StepTogether(w: World, step: Step)
    requires HonestRequests(w) && Enabled(w, step) && !step.CommitEarly? && !step.CommitReceipt?
    ensures BothOrNeither(w, Apply(w, step))
  {
    hide Lists, GuardPasses, ValidateHistory, IsCheckout, AllRows, IsNext;
    if step.Commit? {
      WritesOwnRow(w, step.s);
      assert BothAdded(w, Apply(w, step), Executed(w, step.s).asked.migration);
    }
  }

  lemma GrowsFurther(t: Table, u: Table, v: Table)
    ensures Grows(t, t)
    ensures Grows(t, u) && Grows(u, v) ==> Grows(t, v)
  {}

  /** No row of the history, once there, ever changes its checksum or goes away. */
  lemma {:induction false} RowsAreImmutable(run: seq<World>, i: nat, j: nat)
    requires IsRun(run) && i <= j < |run|
    ensures Grows(run[i].table, run[j].table)
    decreases j
  {
    hide Enabled, Apply, ReadsSent, IsRun, Grows;
    if i == j {
      GrowsFurther(run[i].table, run[i].table, run[i].table);
    } else {
      RowsAreImmutable(run, i, j - 1);
      var step := LastStep(run, j);
      TableGrows(run[j - 1], step);
      GrowsFurther(run[i].table, run[j - 1].table, run[j].table);
    }
  }

  /** A deployer that finished has reported exactly the versions of its checkout missing from the history it read,
      in order, and the history is then complete for its checkout, now and for the rest of the run. */
  lemma FinishedIsComplete(run: seq<World>, i: nat, j: nat, id: nat)
    requires IsRun(run) && i <= j < |run|
    requires id in run[i].deployers && run[i].deployers[id].phase == Finished
    ensures
      var d := run[i].deployers[id];
      var versions := VersionsOf(d.checkout.migrations);
      && d.start <= |d.known| == |versions|
      && RowVersions(d.known)[..d.start] == versions[..d.start]
      && d.reported == versions[d.start..]
      && forall k :: 0 <= k < |versions| ==> versions[k] in run[j].table
  {
    InformedThroughout(run, i);
    RowsAreImmutable(run, i, j);
    var d := run[i].deployers[id];
    assert SoundDeployer(run[i], d);
    var versions := VersionsOf(d.checkout.migrations);
    assert versions[..|d.known|] == versions;
    forall k | 0 <= k < |versions| ensures versions[k] in run[j].table {
      assert RowVersions(d.known)[k] == versions[k];
      assert Holds(run[i].table, d.known[k]);
    }
  }

  // ---------------------------------------------------------------------------------------------
  // One shared checkout
  // ---------------------------------------------------------------------------------------------

  /** A request checks its guard, and asks for the migration after the prefix that it expects. */
  ghost predicate SharedRequest(c: Checkout, p: Posted) {
    && IsCheckout(c) && Guards(p)
    && IsPrefix(c, p.asked.expected)
    && |p.asked.expected| < |c.migrations|
    && p.asked.migration == c.migrations[|p.asked.expected|]
  }

  ghost predicate SharedRequests(c: Checkout, w: World) {
    forall i :: 0 <= i < |w.requests| ==> SharedRequest(c, w.requests[i])
  }

  ghost predicate SharedDeployer(c: Checkout, d: Deployer) {
    d.checkout == c && (d.phase != Starting ==> IsPrefix(c, d.known))
  }

  ghost predicate SharedDeployers(c: Checkout, w: World) {
    forall id :: id in w.deployers ==> SharedDeployer(c, w.deployers[id])
  }

  predicate IsPastGuard(stage: Stage) {
    stage == AtBody || stage == Written || stage == Landed
  }

  /** Past the guard the table has no fewer rows than the request expects, with or without the lock. */
  ghost predicate CountedSession(w: World, x: Session) {
    && x.request < |w.requests|
    && (IsPastGuard(x.stage) ==> |w.requests[x.request].asked.expected| <= |w.table|)
  }

  ghost predicate CountedSessions(w: World) {
    forall s :: s in w.sessions ==> CountedSession(w, w.sessions[s])
  }

  ghost predicate Shared(c: Checkout, w: World) {
    SharedRequests(c, w) && SharedDeployers(c, w) && CountedSessions(w)
  }

  /** The table is a prefix of the checkout, up to the compatible checksums. */
  ghost predicate PrefixTable(c: Checkout, table: Table) {
    exists rows :: Lists(rows, table) && IsPrefix(c, rows)
  }

  lemma SharedRequestsKept(c: Checkout, w: World, step: Step)
    requires SoundDeployers(w) && SharedRequests(c, w) && SharedDeployers(c, w) && Enabled(w, step) && ReadsSent(step)
    ensures SharedRequests(c, Apply(w, step))
  {
    hide SharedRequest, IsCheckout, Lists, GuardPasses, IsPrefix, ValidateHistory, ReadRightly;
    if step.Send? {
      assert SoundDeployer(w, w.deployers[step.id]) && SharedDeployer(c, w.deployers[step.id]);
      SentIsShared(c, w, w.deployers[step.id], step.k, step.request);
    }
  }

  lemma SentIsShared(c: Checkout, w: World, d: Deployer, k: nat, p: Posted)
    requires SoundDeployer(w, d) && SharedDeployer(c, d) && d.phase == Deploying && IsNext(d, k)
    requires p.asked == Guarded(d.known, d.checkout.migrations[k]) && ReadRightly(p)
    ensures SharedRequest(c, p)
  {
    NextIsPlace(w, d, k);
    assert IsRow(RowOf(c.migrations[k])) && FromFile(c.migrations[k]);
    hide IsCheckout, IsRow, FromFile, LeftCommit, Swallowing, IsPrefix, AllRows, Holds, IsNext, ReadRightly;
    SentShape(d.known, c.migrations[k], p);
  }

  lemma SharedDeployersKept(c: Checkout, w: World, step: Step)
    requires Informed(w) && SharedRequests(c, w) && SharedDeployers(c, w) && Enabled(w, step)
    requires forall id :: id in Apply(w, step).deployers ==> Apply(w, step).deployers[id].checkout == c
    ensures SharedDeployers(c, Apply(w, step))
  {
    hide Informed, Enabled, Apply, SharedRequests, SharedDeployer;
    var u := Apply(w, step);
    forall id | id in u.deployers ensures SharedDeployer(c, u.deployers[id]) {
      if id in w.deployers && u.deployers[id] == w.deployers[id] {
        assert SharedDeployer(c, w.deployers[id]);
      } else {
        SharedMoves(c, w, step, id);
      }
    }
  }

  lemma SharedMoves(c: Checkout, w: World, step: Step, id: nat)
    requires Informed(w) && SharedRequests(c, w) && SharedDeployers(c, w) && Enabled(w, step)
    requires
      var u := Apply(w, step);
      id in u.deployers && u.deployers[id].checkout == c && !(id in w.deployers && u.deployers[id] == w.deployers[id])
    ensures SharedDeployer(c, Apply(w, step).deployers[id])
  {
    hide Informed, SharedRequests, IsCheckout;
    hide Lists, GuardPasses, IsPrefix, ValidateHistory, IsNext, AllRows;
    match step {
      case Read(_, rows) => ReadIsPrefix(w, id, rows);
      case Reply(_) => ReplyIsPrefix(c, w, id);
      case Send(_, _, _) => assert SharedDeployer(c, w.deployers[id]);
      case Finish(_) => assert SharedDeployer(c, w.deployers[id]);
      case _ =>
    }
  }

  lemma ReadIsPrefix(w: World, id: nat, rows: seq<Row>)
    requires Informed(w) && Enabled(w, Read(id, rows))
    ensures ValidateHistory(w.deployers[id].checkout, rows).Ok? ==> IsPrefix(w.deployers[id].checkout, rows)
  {
    hide ValidateHistory, IsPrefix;
    assert SoundDeployer(w, w.deployers[id]);
    CheckoutAscends(w.deployers[id].checkout);
    ValidExactlyForPrefix(w.deployers[id].checkout, rows);
  }

  lemma ReplyIsPrefix(c: Checkout, w: World, id: nat)
    requires Informed(w) && SharedDeployers(c, w) && Enabled(w, Reply(id))
    ensures
      var d := w.deployers[id];
      IsPrefix(c, AfterReply(d, w.requests[d.phase.request].asked.migration).known)
  {
    hide IsCheckout, IsPrefix;
    var d := w.deployers[id];
    assert SoundDeployer(w, d) && SharedDeployer(c, d);
    LongerPrefix(c, d.known);
  }

  lemma CountsKept(c: Checkout, w: World, step: Step)
    requires SharedRequests(c, w) && CountedSessions(w) && Enabled(w, step)
    ensures CountedSessions(Apply(w, step))
  {
    hide SharedRequests, CountedSession, Enabled, Apply;
    CountGrows(w, step);
    forall s | s in Apply(w, step).sessions ensures CountedSession(Apply(w, step), Apply(w, step).sessions[s]) {
      CountKept(c, w, step, s);
    }
  }

  lemma CountKept(c: Checkout, w: World, step: Step, s: nat)
    requires SharedRequests(c, w) && CountedSessions(w) && Enabled(w, step) && s in Apply(w, step).sessions
    requires |w.table| <= |Apply(w, step).table|
    ensures CountedSession(Apply(w, step), Apply(w, step).sessions[s])
  {
    SessionMoves(w, step, s);
    if s in w.sessions {
      assert CountedSession(w, w.sessions[s]) && SharedRequest(c, Executed(w, s));
      if step == CheckGuard(s) { GuardCounts(w, s); }
    }
    hide Enabled, Apply, SharedRequests, CountedSessions, SharedRequest;
  }

  /** Only the guard leads past the guard. */
  lemma SessionMoves(w: World, step: Step, s: nat)
    requires Enabled(w, step) && s in Apply(w, step).sessions
    ensures
      var u := Apply(w, step);
      && w.requests <= u.requests
      && (s in w.sessions ==> u.sessions[s].request == w.sessions[s].request)
      && (s !in w.sessions ==> u.sessions[s].request < |w.requests|)
      && (IsPastGuard(u.sessions[s].stage) ==>
            s in w.sessions && (IsPastGuard(w.sessions[s].stage) || step == CheckGuard(s)))
  {
    hide Lists, GuardPasses, ValidateHistory, IsCheckout, AllRows, IsNext;
  }

  lemma GuardCounts(w: World, s: nat)
    requires Enabled(w, CheckGuard(s)) && Guards(Executed(w, s))
    ensures |Executed(w, s).asked.expected| == |w.table|
  {}

  lemma CountGrows(w: World, step: Step)
    requires Enabled(w, step)
    ensures |w.table| <= |Apply(w, step).table|
  {
    hide Lists, GuardPasses, ValidateHistory, IsCheckout, AllRows, IsNext;
  }

  lemma LongerPrefix(c: Checkout, rows: seq<Row>)
    requires IsPrefix(c, rows) && |rows| < |c.migrations|
    ensures IsPrefix(c, rows + [RowOf(c.migrations[|rows|])])
  {}

  /** The receipt of a request that counted right is refused, or it is for the migration that follows the table. */
  lemma ReceiptFollows(c: Checkout, table: Table, p: Posted)
    requires SharedRequest(c, p) && PrefixTable(c, table)
    requires |p.asked.expected| <= |table| && p.asked.migration.version !in table
    ensures PrefixTable(c, table[p.asked.migration.version := p.asked.migration.sha256])
  {
    CheckoutAscends(c);
    hide IsCheckout, Lists, IsPrefix, Ascending;
    var rows: seq<Row> :| Lists(rows, table) && IsPrefix(c, rows);
    AllCounted(c, rows, table, |p.asked.expected|);
    NextIsLater(c, rows, table);
    LongerPrefix(c, rows);
    LongerList(rows, table, RowOf(p.asked.migration));
  }

  lemma AllCounted(c: Checkout, rows: seq<Row>, table: Table, n: nat)
    requires Lists(rows, table) && IsPrefix(c, rows)
    requires n <= |table| && n < |c.migrations| && c.migrations[n].version !in table
    ensures n == |rows|
  {
    ListedSet(rows, table);
    assert forall i :: 0 <= i < |rows| ==> Holds(table, rows[i]) && rows[i].version == c.migrations[i].version;
  }

  lemma NextIsLater(c: Checkout, rows: seq<Row>, table: Table)
    requires Ascending(VersionsOf(c.migrations)) && Lists(rows, table)
    requires IsPrefix(c, rows) && |rows| < |c.migrations|
    ensures forall v :: v in table ==> Less(v, c.migrations[|rows|].version)
  {
    var versions := VersionsOf(c.migrations);
    forall v | v in table ensures Less(v, versions[|rows|]) {
      var i :| 0 <= i < |rows| && RowVersions(rows)[i] == v;
      assert versions[i] == v;
    }
  }

  lemma PrefixTableKept(c: Checkout, w: World, step: Step)
    requires Shared(c, w) && HonestRequests(w) && PrefixTable(c, w.table) && Enabled(w, step)
    ensures PrefixTable(c, Apply(w, step).table)
  {
    hide PrefixTable, SharedRequest, SharedDeployers, Lists, GuardPasses, ValidateHistory, IsCheckout, AllRows, IsNext;
    if step.Commit? || step.CommitReceipt? {
      WritesOwnRow(w, step.s);
      assert CountedSession(w, w.sessions[step.s]);
      ReceiptFollows(c, w.table, Executed(w, step.s));
    }
  }

  lemma LongerList(rows: seq<Row>, table: Table, row: Row)
    requires Lists(rows, table) && row.version !in table
    requires forall v :: v in table ==> Less(v, row.version)
    ensures Lists(rows + [row], table[row.version := row.sha256])
  {
    var u := table[row.version := row.sha256];
    var more := rows + [row];
    assert RowVersions(more) == RowVersions(rows) + [row.version];
    forall i | 0 <= i < |rows| ensures Less(RowVersions(rows)[i], row.version) { assert Holds(table, rows[i]); }
    AscendingAppend(RowVersions(rows), row.version);
    forall i | 0 <= i < |more| ensures Holds(u, more[i]) {
      if i < |rows| { assert Holds(table, rows[i]); }
    }
    assert RowVersions(more)[|rows|] == row.version;
    forall v | v in u ensures v in RowVersions(more) {
      if v in table { assert v in RowVersions(rows); }
    }
  }

  lemma SharedKept(c: Checkout, w: World, step: Step)
    requires Informed(w) && Shared(c, w) && PrefixTable(c, w.table) && Enabled(w, step) && ReadsSent(step)
    requires forall id :: id in Apply(w, step).deployers ==> Apply(w, step).deployers[id].checkout == c
    ensures Shared(c, Apply(w, step)) && PrefixTable(c, Apply(w, step).table)
  {
    hide PrefixTable, Enabled, Apply, ReadsSent, SharedRequests, SharedDeployers, CountedSessions, SoundCommitted;
    hide SoundDeployers, HonestRequests;
    SharedRequestsKept(c, w, step);
    SharedDeployersKept(c, w, step);
    CountsKept(c, w, step);
    PrefixTableKept(c, w, step);
  }

  /** When every deployer works from one checkout, whatever its files leave in their bodies, the history is at every
      moment a prefix of that checkout's migrations, up to the compatible checksums, if it was one at the start. */
  lemma {:induction false} HistoryStaysPrefix(run: seq<World>, c: Checkout, i: nat)
    requires IsRun(run) && i < |run|
    requires forall k, id :: 0 <= k < |run| && id in run[k].deployers ==> run[k].deployers[id].checkout == c
    requires PrefixTable(c, run[0].table)
    ensures PrefixTable(c, run[i].table) && Shared(c, run[i])
  {
    hide *;
    if i == 0 {
      InitiallyShared(c, run);
    } else {
      HistoryStaysPrefix(run, c, i - 1);
      InformedThroughout(run, i - 1);
      var step := LastStep(run, i);
      SharedKept(c, run[i - 1], step);
    }
  }

  lemma InitiallyShared(c: Checkout, run: seq<World>)
    requires IsRun(run)
    ensures Shared(c, run[0])
  {
    hide Next, SharedRequest, SharedDeployer, CountedSession;
  }
}
