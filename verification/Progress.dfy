/** That deployments come to their end: from every reachable world some continuation takes a deployer through all
    migrations that its checkout has and the history lacks. */
module Progress {
  import opened Text
  import opened Sets
  import opened Transaction
  import opened DeploymentText
  import opened RequestReading
  import opened AtomicRequest
  import opened Versions
  import opened MigrationFiles
  import opened History
  import opened Deployment

  /** The body can be committed by its request, with the receipt or before it, and its receipt can be written. */
  ghost predicate IsDeployable(m: Migration) {
    (WholeFile(m) || LeftCommit(m)) && !LeavesFragment(m.body)
  }

  // ---------------------------------------------------------------------------------------------
  // Continuations
  // ---------------------------------------------------------------------------------------------

  ghost predicate IsPath(path: seq<World>) {
    path != [] && forall i :: 0 <= i < |path| - 1 ==> Next(path[i], path[i + 1])
  }

  ghost predicate Connects(path: seq<World>, w: World, u: World) {
    path != [] && path[0] == w && path[|path| - 1] == u
  }

  /** Some steps lead from one world to the other. */
  ghost predicate Leads(w: World, u: World) {
    exists path :: IsPath(path) && Connects(path, w, u)
  }

  lemma LeadsItself(w: World)
    ensures Leads(w, w)
  {
    hide Next;
    assert IsPath([w]) && Connects([w], w, w);
  }

  /** The next world, one step further on. */
  lemma GoOn(w: World, v: World, step: Step) returns (u: World)
    requires Leads(w, v) && Informed(v) && Enabled(v, step) && ReadsSent(step)
    ensures u == Apply(v, step) && Leads(w, u) && Informed(u)
  {
    hide Enabled, Apply, ReadsSent, Informed;
    u := Apply(v, step);
    InformedKept(v, step);
    assert Next(v, u);
    hide Next;
    var path :| IsPath(path) && Connects(path, w, v);
    var more := path + [u];
    forall i | 0 <= i < |more| - 1 ensures Next(more[i], more[i + 1]) {
      if i < |path| - 1 { assert Next(path[i], path[i + 1]); }
    }
    assert IsPath(more) && Connects(more, w, u);
  }

  /** A continuation of a run's last world continues the run. */
  lemma RunOn(run: seq<World>, u: World) returns (longer: seq<World>)
    requires IsRun(run) && Leads(run[|run| - 1], u)
    ensures IsRun(longer) && run <= longer && longer[|longer| - 1] == u
  {
    hide Next;
    var path :| IsPath(path) && Connects(path, run[|run| - 1], u);
    longer := run + path[1..];
    forall i | 0 <= i < |longer| - 1 ensures Next(longer[i], longer[i + 1]) {
      if i < |run| - 1 {
        assert Next(run[i], run[i + 1]);
      } else {
        assert Next(path[i - (|run| - 1)], path[i - (|run| - 1) + 1]);
      }
    }
  }

  // ---------------------------------------------------------------------------------------------
  // One request, executed to its end
  // ---------------------------------------------------------------------------------------------

  ghost predicate NobodyHolds(w: World) {
    forall s :: s in w.sessions ==> !w.sessions[s].holds
  }

  /** The request can be executed to its end now: its guard agrees with the table, and its receipt adds a row. */
  ghost predicate IsReady(w: World, n: nat) {
    && w.created && n < |w.requests| && NobodyHolds(w)
    && var p := w.requests[n];
       && p.read.guard.Some? && Agrees(w.table, p.read.guard.value)
       && (p.read.whole || p.read.early)
       && p.read.row == Some(RowOf(p.asked.migration)) && p.asked.migration.version !in w.table
  }

  /** A session takes the lock, passes the guard and writes. */
  lemma Writes(w: World, v: World, n: nat, s: nat) returns (u: World)
    requires Leads(w, v) && Informed(v) && IsReady(v, n) && s !in v.sessions
    ensures Leads(w, u) && Informed(u)
    ensures u == v.(sessions := v.sessions[s := Session(n, Written, v.requests[n].read.locks)])
  {
    hide Leads, Informed, Agrees, IsNext, ReadRightly, IsCheckout, ValidateHistory, Lists, AllRows;
    u := GoOn(w, v, Open(s, n));
    u := GoOn(w, u, TakeLock(s));
    u := GoOn(w, u, CheckGuard(s));
    u := GoOn(w, u, Write(s));
    assert u.sessions == v.sessions[s := Session(n, Written, v.requests[n].read.locks)];
  }

  function Landing(v: World, n: nat): World
    requires n < |v.requests|
  {
    var m := v.requests[n].asked.migration;
    v.(table := WithRow(v.table, RowOf(m)), applied := v.applied + [m], committed := v.committed + {n})
  }

  /** And commits body and receipt, together or one after the other. */
  lemma Executes(w: World, v: World, n: nat) returns (u: World)
    requires Leads(w, v) && Informed(v) && IsReady(v, n)
    ensures Leads(w, u) && Informed(u) && u == Landing(v, n)
  {
    hide Leads, Informed, Agrees, NobodyHolds, WithRow;
    var s := Above(v.sessions.Keys);
    var written := Writes(w, v, n, s);
    u := Commits(w, v, written, n, s);
    assert v.sessions[s := Session(n, Written, v.requests[n].read.locks)] - {s} == v.sessions;
  }

  lemma Commits(w: World, v: World, written: World, n: nat, s: nat) returns (u: World)
    requires IsReady(v, n) && Leads(w, written) && Informed(written)
    requires written == v.(sessions := v.sessions[s := Session(n, Written, v.requests[n].read.locks)])
    ensures Leads(w, u) && Informed(u) && u == Landing(v, n).(sessions := written.sessions - {s})
  {
    hide Leads, Informed, Agrees, IsNext, ReadRightly, IsCheckout, ValidateHistory, Lists, AllRows;
    if v.requests[n].read.whole {
      u := GoOn(w, written, Commit(s));
    } else {
      var landed := GoOn(w, written, CommitEarly(s));
      u := GoOn(w, landed, CommitReceipt(s));
      assert u.sessions == written.sessions - {s};
    }
  }

  // ---------------------------------------------------------------------------------------------
  // One migration
  // ---------------------------------------------------------------------------------------------

  /** The deployer may send its next migration: its copy of the history is the history. */
  ghost predicate MaySend(w: World, id: nat) {
    && w.created && id in w.deployers && w.deployers[id].phase == Deploying
    && Lists(w.deployers[id].known, w.table) && NobodyHolds(w)
  }

  function AfterSend(w: World, id: nat, p: Posted): World
    requires id in w.deployers
  {
    w.(requests := w.requests + [p], deployers := w.deployers[id := w.deployers[id].(phase := Waiting(|w.requests|))])
  }

  /** What the deployer sends next, if it is deployable, can be executed. */
  lemma SentIsReady(w: World, id: nat, k: nat, p: Posted)
    requires Informed(w) && MaySend(w, id) && IsNext(w.deployers[id], k) && ReadRightly(p)
    requires p.asked == Guarded(w.deployers[id].known, w.deployers[id].checkout.migrations[k])
    requires IsDeployable(w.deployers[id].checkout.migrations[k])
    ensures IsReady(AfterSend(w, id, p), |w.requests|)
  {
    hide Informed, SoundDeployer, IsNext, ReadRightly, Lists, Agrees, IsDeployable;
    SoundAt(w, id);
    SentReads(w, w.deployers[id], k, p);
    NextIsMissing(w.table, w.deployers[id], k);
  }

  lemma SoundAt(w: World, id: nat)
    requires Informed(w) && id in w.deployers
    ensures SoundDeployer(w, w.deployers[id])
  {
    hide SoundDeployer, SoundCommitted, HonestRequests;
  }

  lemma NextIsMissing(table: Table, d: Deployer, k: nat)
    requires IsNext(d, k) && Lists(d.known, table)
    ensures d.checkout.migrations[k].version !in table
  {}

  lemma SentReads(w: World, d: Deployer, k: nat, p: Posted)
    requires SoundDeployer(w, d) && d.phase == Deploying && IsNext(d, k) && Lists(d.known, w.table)
    requires p.asked == Guarded(d.known, d.checkout.migrations[k]) && ReadRightly(p)
    requires IsDeployable(d.checkout.migrations[k])
    ensures p.read.guard.Some? && Agrees(w.table, p.read.guard.value)
    ensures (p.read.whole || p.read.early) && p.read.row == Some(RowOf(p.asked.migration))
  {
    hide IsCheckout, WholeFile, LeftCommit, Swallowing, LeavesFragment, FromFile, IsRow, AllRows, ReadRightly, Lists, Agrees, IsNext;
    NextFits(d, k);
    CheckoutFile(d.checkout, k);
    SentShape(d.known, d.checkout.migrations[k], p);
    GuardIsEquality(w.table, w.table, d.known);
  }

  /** In every reachable world in which a deployer runs whose copy of the history is the history, and nobody else has the
      lock: if its next migration is deployable, there are steps after which that body has landed once with its row, and
      the deployer has its reply and the same standing as before. */
  lemma LandsNext(w: World, v: World, id: nat, k: nat) returns (u: World)
    requires Leads(w, v) && Informed(v) && MaySend(v, id) && IsNext(v.deployers[id], k)
    requires IsDeployable(v.deployers[id].checkout.migrations[k])
    ensures Leads(w, u) && Informed(u) && MaySend(u, id)
    ensures
      var d := v.deployers[id];
      var m := d.checkout.migrations[k];
      && u.applied == v.applied + [m] && u.table == WithRow(v.table, RowOf(m))
      && u.deployers == v.deployers[id := AfterReply(d, m)]
      && u.sessions == v.sessions
  {
    hide Leads, Informed, IsNext, ReadRightly, IsCheckout, ValidateHistory, Lists, AllRows, IsDeployable, ReadingOf;
    hide SoundDeployer;
    var d, n := v.deployers[id], |v.requests|;
    NextFits(d, k);
    var r := Guarded(d.known, d.checkout.migrations[k]);
    var p := Posted(r, ReadingOf(r));
    ReadsItself(p);
    SentIsReady(v, id, k, p);
    var sent := GoOn(w, v, Send(id, k, p));
    var landed := Executes(w, sent, n);
    u := Replies(w, v, landed, id, n, p);
    SoundAt(v, id);
    ListsLonger(v, d, k);
  }

  lemma ReadsItself(p: Posted)
    requires p.read == ReadingOf(p.asked)
    ensures ReadRightly(p)
  {}

  lemma Replies(w: World, v: World, landed: World, id: nat, n: nat, p: Posted) returns (u: World)
    requires Leads(w, landed) && Informed(landed) && id in v.deployers && v.deployers[id].phase == Deploying
    requires n == |v.requests|
    requires landed == Landing(v.(requests := v.requests + [p], deployers := v.deployers[id := v.deployers[id].(phase := Waiting(n))]), n)
    ensures Leads(w, u) && Informed(u)
    ensures u == landed.(deployers := v.deployers[id := AfterReply(v.deployers[id], p.asked.migration)])
  {
    hide Leads, Informed, IsNext, ReadRightly, IsCheckout, ValidateHistory, Lists, AllRows;
    u := GoOn(w, landed, Reply(id));
    assert u.deployers == v.deployers[id := AfterReply(v.deployers[id], p.asked.migration)];
  }

  lemma ListsLonger(v: World, d: Deployer, k: nat)
    requires SoundDeployer(v, d) && d.phase == Deploying && IsNext(d, k) && Lists(d.known, v.table)
    ensures Lists(d.known + [RowOf(d.checkout.migrations[k])], WithRow(v.table, RowOf(d.checkout.migrations[k])))
  {
    hide SoundDeployer, IsNext, Lists, Ascending;
    NextFits(d, k);
    NextIsMissing(v.table, d, k);
    NextIsAbove(v, d, k);
    LongerList(d.known, v.table, RowOf(d.checkout.migrations[k]));
  }

  lemma NextIsAbove(v: World, d: Deployer, k: nat)
    requires SoundDeployer(v, d) && d.phase == Deploying && IsNext(d, k) && Lists(d.known, v.table)
    ensures forall x :: x in v.table ==> Less(x, d.checkout.migrations[k].version)
  {
    NextIsPlace(v, d, k);
    CheckoutAscends(d.checkout);
    hide IsCheckout, AllRows, IsNext, Holds;
    var versions := VersionsOf(d.checkout.migrations);
    forall x | x in v.table ensures Less(x, versions[k]) {
      var i :| 0 <= i < |d.known| && RowVersions(d.known)[i] == x;
      assert versions[..k][i] == x;
    }
  }

  /** The same for runs: this one goes on until the migration has landed and its deployer has the reply. */
  lemma NextLands(run: seq<World>, id: nat, k: nat) returns (longer: seq<World>)
    requires IsRun(run) && MaySend(run[|run| - 1], id) && IsNext(run[|run| - 1].deployers[id], k)
    requires IsDeployable(run[|run| - 1].deployers[id].checkout.migrations[k])
    ensures IsRun(longer) && run <= longer && MaySend(longer[|longer| - 1], id)
    ensures
      var w, u := run[|run| - 1], longer[|longer| - 1];
      var m := w.deployers[id].checkout.migrations[k];
      && u.applied == w.applied + [m] && u.table == WithRow(w.table, RowOf(m))
      && u.deployers[id] == AfterReply(w.deployers[id], m)
  {
    var w := run[|run| - 1];
    hide Leads, Informed, MaySend, IsNext, IsDeployable, IsRun;
    InformedThroughout(run, |run| - 1);
    LeadsItself(w);
    var u := LandsNext(w, w, id, k);
    longer := RunOn(run, u);
  }

  // ---------------------------------------------------------------------------------------------
  // All that is missing
  // ---------------------------------------------------------------------------------------------

  ghost predicate RestDeployable(d: Deployer) {
    forall i :: |d.known| <= i < |d.checkout.migrations| ==> IsDeployable(d.checkout.migrations[i])
  }

  /** The deployer when it has deployed everything. */
  function AtEnd(d: Deployer): Deployer
    requires |d.known| <= |d.checkout.migrations|
  {
    var rest := d.checkout.migrations[|d.known|..];
    Deployer(d.checkout, Finished, d.start, d.known + RowsOf(rest), d.reported + VersionsOf(rest))
  }

  lemma KnownFits(w: World, id: nat)
    requires Informed(w) && id in w.deployers && w.deployers[id].phase == Deploying
    ensures |w.deployers[id].known| <= |w.deployers[id].checkout.migrations|
    ensures forall k :: IsNext(w.deployers[id], k) <==> k == |w.deployers[id].known| < |w.deployers[id].checkout.migrations|
  {
    SoundAt(w, id);
    hide Informed, IsCheckout, IsNext, AllRows;
    forall k: nat ensures IsNext(w.deployers[id], k) <==> k == |w.deployers[id].known| < |w.deployers[id].checkout.migrations| {
      NextIsPlace(w, w.deployers[id], k);
    }
  }

  /** One after the other, the migrations that are missing land, each once and in order, and the deployer is finished. */
  lemma {:induction false} DeploysRest(w: World, v: World, id: nat) returns (u: World)
    requires Leads(w, v) && Informed(v) && MaySend(v, id) && RestDeployable(v.deployers[id])
    requires |v.deployers[id].known| <= |v.deployers[id].checkout.migrations|
    ensures Leads(w, u) && Informed(u) && id in u.deployers
    ensures u.deployers[id] == AtEnd(v.deployers[id]) && Lists(u.deployers[id].known, u.table)
    ensures u.applied == v.applied + v.deployers[id].checkout.migrations[|v.deployers[id].known|..]
    decreases |v.deployers[id].checkout.migrations| - |v.deployers[id].known|
  {
    hide Leads, Informed, IsNext, ReadRightly, IsCheckout, ValidateHistory, Lists, AllRows, IsDeployable;
    var d, n := v.deployers[id], |v.deployers[id].known|;
    KnownFits(v, id);
    if n < |d.checkout.migrations| {
      var next := LandsNext(w, v, id, n);
      u := DeploysRest(w, next, id);
      RestStep(d, n);
      Assoc(v.applied, [d.checkout.migrations[n]], d.checkout.migrations[n + 1..]);
    } else {
      u := GoOn(w, v, Finish(id));
      RestDone(d, v.applied);
    }
  }

  lemma RestStep(d: Deployer, n: nat)
    requires n == |d.known| < |d.checkout.migrations|
    ensures
      var m := d.checkout.migrations[n];
      && [m] + d.checkout.migrations[n + 1..] == d.checkout.migrations[n..]
      && AtEnd(AfterReply(d, m)) == AtEnd(d)
  {
    var ms := d.checkout.migrations;
    var next := AfterReply(d, ms[n]);
    assert [ms[n]] + ms[n + 1..] == ms[n..];
    assert RowsOf(ms[n..]) == [RowOf(ms[n])] + RowsOf(ms[n + 1..]);
    assert VersionsOf(ms[n..]) == [ms[n].version] + VersionsOf(ms[n + 1..]);
    Assoc(d.known, [RowOf(ms[n])], RowsOf(ms[n + 1..]));
    Assoc(d.reported, [ms[n].version], VersionsOf(ms[n + 1..]));
  }

  lemma RestDone(d: Deployer, applied: seq<Migration>)
    requires |d.known| == |d.checkout.migrations|
    ensures AtEnd(d) == d.(phase := Finished) && applied + d.checkout.migrations[|d.known|..] == applied
  {
    assert d.checkout.migrations[|d.known|..] == [];
    assert d.known + RowsOf([]) == d.known && d.reported + VersionsOf([]) == d.reported;
  }

  // ---------------------------------------------------------------------------------------------
  // From any world
  // ---------------------------------------------------------------------------------------------

  /** Every session may lose its connection. */
  lemma {:induction false} AbortAll(w: World, v: World) returns (u: World)
    requires Leads(w, v) && Informed(v)
    ensures Leads(w, u) && Informed(u) && u == v.(sessions := map[])
    decreases |v.sessions|
  {
    hide Leads, Informed, IsNext, IsCheckout, ValidateHistory, Lists, AllRows;
    u := v;
    if s :| s in v.sessions {
      var fewer := GoOn(w, v, Abort(s));
      assert fewer.sessions.Keys == v.sessions.Keys - {s};
      assert |fewer.sessions| == |fewer.sessions.Keys| && |v.sessions| == |v.sessions.Keys|;
      u := AbortAll(w, fewer);
    } else {
      assert v.sessions == map[];
    }
  }

  /** A deployer may stop. */
  lemma CrashOne(w: World, v: World, id: nat) returns (u: World)
    requires Leads(w, v) && Informed(v)
    ensures Leads(w, u) && Informed(u) && u == v.(deployers := v.deployers - {id})
  {
    hide Leads, Informed, IsNext, IsCheckout, ValidateHistory, Lists, AllRows;
    u := v;
    if id in v.deployers {
      u := GoOn(w, v, Crash(id));
    } else {
      assert v.deployers - {id} == v.deployers;
    }
  }

  /** A newcomer finds the history objects, or creates them, and reads the history. */
  lemma Joins(w: World, v: World, c: Checkout, rows: seq<Row>, id: nat) returns (u: World)
    requires Leads(w, v) && Informed(v) && id !in v.deployers && IsCheckout(c)
    requires Lists(rows, v.table) && AllRows(rows) && ValidateHistory(c, rows).Ok?
    ensures Leads(w, u) && Informed(u)
    ensures u == v.(created := true, deployers := v.deployers[id := Deployer(c, Deploying, |rows|, rows, [])])
  {
    hide Leads, Informed, IsNext, IsCheckout, ValidateHistory, Lists, AllRows;
    u := GoOn(w, v, Bootstrap);
    u := GoOn(w, u, Start(id, c));
    u := GoOn(w, u, Read(id, rows));
    assert u.deployers == v.deployers[id := Deployer(c, Deploying, |rows|, rows, [])];
  }

  /** Whatever has happened, crashes, lost connections and half-done work of others included: when the history is a prefix
      of a checkout whose further files are deployable, the run can go on until a deployer of that checkout, started anew,
      has finished. The missing bodies have then landed, each once and in order, and history, copy and report are complete. */
  lemma AlwaysDeploys(run: seq<World>, c: Checkout, rows: seq<Row>, id: nat) returns (longer: seq<World>)
    requires IsRun(run) && IsCheckout(c) && ManifestMatches(c)
    requires Lists(rows, run[|run| - 1].table) && AllRows(rows) && IsPrefix(c, rows)
    requires forall i :: |rows| <= i < |c.migrations| ==> IsDeployable(c.migrations[i])
    ensures IsRun(longer) && run <= longer
    ensures
      var w, u, ms := run[|run| - 1], longer[|longer| - 1], c.migrations;
      && id in u.deployers
      && u.deployers[id] == Deployer(c, Finished, |rows|, rows + RowsOf(ms[|rows|..]), VersionsOf(ms)[|rows|..])
      && u.applied == w.applied + ms[|rows|..]
      && Lists(rows + RowsOf(ms[|rows|..]), u.table)
  {
    var w, n := run[|run| - 1], |run| - 1;
    CheckoutAscends(c);
    ValidExactlyForPrefix(c, rows);
    PrefixFits(c, rows);
    InformedThroughout(run, n);
    LeadsItself(w);
    hide *;
    var alone := AbortAll(w, w);
    var free := CrashOne(w, alone, id);
    var joined := Joins(w, free, c, rows, id);
    var u := RestFrom(w, joined, c, rows, id);
    longer := RunOn(run, u);
  }

  lemma RestFrom(w: World, v: World, c: Checkout, rows: seq<Row>, id: nat) returns (u: World)
    requires Leads(w, v) && Informed(v) && v.created && v.sessions == map[] && id in v.deployers
    requires v.deployers[id] == Deployer(c, Deploying, |rows|, rows, []) && Lists(rows, v.table) && |rows| <= |c.migrations|
    requires forall i :: |rows| <= i < |c.migrations| ==> IsDeployable(c.migrations[i])
    ensures Leads(w, u) && id in u.deployers
    ensures u.deployers[id]
         == Deployer(c, Finished, |rows|, rows + RowsOf(c.migrations[|rows|..]), VersionsOf(c.migrations)[|rows|..])
    ensures u.applied == v.applied + c.migrations[|rows|..] && Lists(rows + RowsOf(c.migrations[|rows|..]), u.table)
  {
    hide Leads, Informed, Lists, IsDeployable;
    u := DeploysRest(w, v, id);
    var rest := c.migrations[|rows|..];
    assert VersionsOf(rest) == VersionsOf(c.migrations)[|rows|..];
    assert [] + VersionsOf(rest) == VersionsOf(rest);
  }

  /** In particular on a fresh project: from nothing at all, every migration of the checkout lands once and in order. */
  lemma FreshProjectDeploys(c: Checkout) returns (run: seq<World>)
    requires IsCheckout(c) && ManifestMatches(c)
    requires forall i :: 0 <= i < |c.migrations| ==> IsDeployable(c.migrations[i])
    ensures IsRun(run) && !run[0].created && run[0].table == map[]
    ensures
      var u := run[|run| - 1];
      && 0 in u.deployers && u.deployers[0].phase == Finished && u.deployers[0].reported == VersionsOf(c.migrations)
      && u.applied == c.migrations && Lists(RowsOf(c.migrations), u.table)
  {
    var start := World(false, map[], [], [], {}, map[], map[]);
    hide Next, IsCheckout, ManifestMatches, IsDeployable;
    assert IsRun([start]);
    NothingListed(c);
    run := AlwaysDeploys([start], c, [], 0);
    assert [] + RowsOf(c.migrations[0..]) == RowsOf(c.migrations) && c.migrations[0..] == c.migrations;
    assert VersionsOf(c.migrations)[0..] == VersionsOf(c.migrations) && [] + c.migrations == c.migrations;
  }

  lemma NothingListed(c: Checkout)
    ensures Lists([], map[]) && AllRows([]) && IsPrefix(c, [])
  {}
}
