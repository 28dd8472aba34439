/** What becomes of a migration by the way its file ends. Deployed exactly once are those whose COMMIT is not commented out
    and that leave no fragment. A COMMIT left in the body as a statement lets the body land more than once; one that
    swallows the receipt, or a fragment before the receipt, keeps the migration from ever landing. */
module LeftCommits {
  import opened Text
  import opened Transaction
  import opened DeploymentText
  import opened AtomicRequest
  import opened Versions
  import opened MigrationFiles
  import opened History
  import opened Deployment
  import opened Progress

  /** Every deployer of the run works from this checkout. */
  ghost predicate OnlyFrom(c: Checkout, run: seq<World>) {
    forall i, id :: 0 <= i < |run| && id in run[i].deployers ==> run[i].deployers[id].checkout == c
  }

  function Last(run: seq<World>): World
    requires run != []
  {
    run[|run| - 1]
  }

  ghost predicate NoneTwice(applied: seq<Migration>) {
    forall a, b :: 0 <= a < b < |applied| ==> applied[a] != applied[b]
  }

  /** However deployers of this checkout run, no body lands twice. */
  ghost predicate AppliesAtMostOnce(c: Checkout) {
    forall run :: IsRun(run) && OnlyFrom(c, run) ==> run != [] && NoneTwice(Last(run).applied)
  }

  // ---------------------------------------------------------------------------------------------
  // A run in which a body lands twice
  // ---------------------------------------------------------------------------------------------

  /** A run of this checkout's deployers gets there. */
  ghost predicate Reached(c: Checkout, w: World) {
    exists run :: IsRun(run) && OnlyFrom(c, run) && EndsIn(run, w)
  }

  ghost predicate EndsIn(run: seq<World>, w: World) {
    run != [] && Last(run) == w
  }

  ghost predicate AllFrom(c: Checkout, w: World) {
    forall id :: id in w.deployers ==> w.deployers[id].checkout == c
  }

  /** The next world, one step further on. */
  lemma GoOn(c: Checkout, w: World, step: Step) returns (u: World)
    requires Reached(c, w) && Enabled(w, step) && ReadsSent(step) && (step.Start? ==> step.checkout == c)
    ensures u == Apply(w, step) && Reached(c, u)
  {
    hide IsRun, Enabled, Apply, ReadsSent, OnlyFrom, AllFrom;
    u := Apply(w, step);
    var run :| IsRun(run) && OnlyFrom(c, run) && EndsIn(run, w);
    assert Next(w, u);
    LastFrom(c, run);
    AllStayFrom(c, w, step);
    RunLonger(run, u);
    OnlyLonger(c, run, u);
    assert EndsIn(run + [u], u);
  }

  lemma LastFrom(c: Checkout, run: seq<World>)
    requires run != [] && OnlyFrom(c, run)
    ensures AllFrom(c, Last(run))
  {}

  lemma RunLonger(run: seq<World>, u: World)
    requires IsRun(run) && Next(Last(run), u)
    ensures IsRun(run + [u])
  {
    hide Next;
    var more := run + [u];
    forall i | 0 <= i < |more| - 1 ensures Next(more[i], more[i + 1]) {
      if i < |run| - 1 { assert Next(run[i], run[i + 1]); }
    }
  }

  lemma OnlyLonger(c: Checkout, run: seq<World>, u: World)
    requires OnlyFrom(c, run) && AllFrom(c, u)
    ensures OnlyFrom(c, run + [u])
  {}

  lemma AllStayFrom(c: Checkout, w: World, step: Step)
    requires AllFrom(c, w) && Enabled(w, step) && (step.Start? ==> step.checkout == c)
    ensures AllFrom(c, Apply(w, step))
  {
    hide IsCheckout, Lists, ValidateHistory, GuardPasses, IsNext, AllRows, At;
    if !(step.Start? || step.Read? || step.Send? || step.Reply? || step.Finish? || step.Crash?) {
      assert Apply(w, step).deployers == w.deployers;
    }
  }

  /** One request is in flight, nothing else, and its guard would pass. */
  ghost predicate Ready(w: World, p: Posted) {
    && w.created && w.requests == [p] && w.sessions == map[]
    && Guards(p) && GuardPasses(w.table, p.asked.expected)
  }

  /** The database takes the lock, passes the guard and writes. */
  lemma WritesAgain(c: Checkout, w: World, p: Posted) returns (u: World)
    requires Reached(c, w) && Ready(w, p)
    ensures Reached(c, u) && u == w.(sessions := map[0 := Session(0, Written, p.read.locks)])
  {
    hide Reached, Agrees, IsNext, ReadRightly, IsCheckout, ValidateHistory, Lists, AllRows;
    u := GoOn(c, w, Open(0, 0));
    u := GoOn(c, u, TakeLock(0));
    u := GoOn(c, u, CheckGuard(0));
    u := GoOn(c, u, Write(0));
    assert u.sessions == map[0 := Session(0, Written, p.read.locks)];
  }

  /** And comes to the COMMIT in the body, and then loses the connection. */
  lemma LandsAgain(c: Checkout, w: World, p: Posted) returns (u: World)
    requires Reached(c, w) && Ready(w, p) && p.read.early
    ensures Reached(c, u) && u == w.(applied := w.applied + [p.asked.migration]) && Ready(u, p)
  {
    hide Reached, GuardPasses, IsNext, ReadRightly, IsCheckout, ValidateHistory, Lists, AllRows;
    var written := WritesAgain(c, w, p);
    var landed := GoOn(c, written, CommitEarly(0));
    u := GoOn(c, landed, Abort(0));
    assert u.sessions == map[];
  }

  /** The rows of the first migrations. */
  function FirstRows(c: Checkout, k: nat): seq<Row>
    requires k <= |c.migrations|
  {
    seq(k, i requires 0 <= i < k => RowOf(c.migrations[i]))
  }

  lemma {:induction false} TableOf(c: Checkout, k: nat) returns (table: Table)
    requires Ascending(VersionsOf(c.migrations)) && k <= |c.migrations|
    ensures Lists(FirstRows(c, k), table)
  {
    if k == 0 {
      table := map[];
    } else {
      var before := TableOf(c, k - 1);
      var row := RowOf(c.migrations[k - 1]);
      var rows := FirstRows(c, k - 1);
      forall v | v in before ensures Less(v, row.version) {
        assert v in RowVersions(rows);
        var i :| 0 <= i < k - 1 && RowVersions(rows)[i] == v;
        assert VersionsOf(c.migrations)[i] == v && VersionsOf(c.migrations)[k - 1] == row.version;
      }
      LessIrreflexive(row.version);
      LongerList(rows, before, row);
      table := before[row.version := row.sha256];
      assert FirstRows(c, k) == rows + [row];
    }
  }

  lemma FirstRowsArePrefix(c: Checkout, k: nat)
    requires IsCheckout(c) && ManifestMatches(c) && k <= |c.migrations|
    ensures AllRows(FirstRows(c, k)) && ValidateHistory(c, FirstRows(c, k)).Ok?
    ensures RowVersions(FirstRows(c, k)) == VersionsOf(c.migrations)[..k]
  {
    hide ValidateHistory, FromFile, IsRow;
    ValidExactlyForPrefix(c, FirstRows(c, k));
  }

  lemma Beginning(c: Checkout, table: Table)
    ensures Reached(c, Alone(table, [], map[]))
  {
    hide Next;
    var w := Alone(table, [], map[]);
    assert IsRun([w]) && OnlyFrom(c, [w]) && EndsIn([w], w);
  }

  lemma IsReady(w: World, p: Posted, rows: seq<Row>, table: Table)
    requires w.created && w.table == table && w.requests == [p] && w.sessions == map[]
    requires p.asked.expected == rows && Lists(rows, table) && Guards(p)
    ensures Ready(w, p)
  {
    hide Lists, GuardPasses;
    GuardIsEquality(table, table, rows);
  }

  function Newcomer(c: Checkout): Deployer {
    Deployer(c, Starting, 0, [], [])
  }

  function Alone(table: Table, requests: seq<Posted>, deployers: map<nat, Deployer>): World {
    World(true, table, [], requests, {}, map[], deployers)
  }

  lemma Started(c: Checkout, table: Table) returns (w: World)
    requires Reached(c, Alone(table, [], map[])) && IsCheckout(c)
    ensures Reached(c, w) && w == Alone(table, [], map[0 := Newcomer(c)])
  {
    hide Reached, IsNext, ReadRightly, GuardPasses, IsCheckout, ValidateHistory, Lists, AllRows;
    w := GoOn(c, Alone(table, [], map[]), Start(0, c));
  }

  lemma ReadHistory(c: Checkout, table: Table, rows: seq<Row>) returns (w: World)
    requires Reached(c, Alone(table, [], map[0 := Newcomer(c)]))
    requires Lists(rows, table) && AllRows(rows) && ValidateHistory(c, rows).Ok?
    ensures Reached(c, w) && w == Alone(table, [], map[0 := AfterRead(Newcomer(c), rows)])
  {
    hide Reached, IsNext, ReadRightly, GuardPasses, IsCheckout, ValidateHistory, Lists, AllRows;
    w := GoOn(c, Alone(table, [], map[0 := Newcomer(c)]), Read(0, rows));
    assert w.deployers == map[0 := AfterRead(Newcomer(c), rows)];
  }

  lemma AfterReading(c: Checkout, rows: seq<Row>)
    ensures var d := AfterRead(Newcomer(c), rows); d.phase == Deploying && d.checkout == c && d.known == rows
  {}

  lemma SentNext(c: Checkout, table: Table, d: Deployer, k: nat, p: Posted) returns (w: World)
    requires Reached(c, Alone(table, [], map[0 := d])) && d.phase == Deploying && d.checkout == c && IsNext(d, k)
    requires k < |c.migrations| && p.asked == Guarded(d.known, c.migrations[k]) && ReadRightly(p)
    ensures Reached(c, w) && w.created && w.table == table && w.requests == [p] && w.sessions == map[] && w.applied == []
  {
    hide Reached, IsNext, ReadRightly, GuardPasses, IsCheckout, ValidateHistory, Lists, AllRows;
    w := GoOn(c, Alone(table, [], map[0 := d]), Send(0, k, p));
    assert [] + [p] == [p];
  }

  /** A deployer reads a history that holds the migrations before this one, and sends this one. */
  lemma Sent(c: Checkout, k: nat) returns (w: World, p: Posted)
    requires IsCheckout(c) && ManifestMatches(c) && k < |c.migrations|
    ensures Reached(c, w) && Ready(w, p) && w.applied == []
    ensures p.asked == Guarded(FirstRows(c, k), c.migrations[k]) && ReadRightly(p)
  {
    var rows := FirstRows(c, k);
    var r := Guarded(rows, c.migrations[k]);
    p := Posted(r, ReadingOf(r));
    assert ReadRightly(p);
    CheckoutAscends(c);
    var table := TableOf(c, k);
    FirstRowsArePrefix(c, k);
    NextAfter(c, k);
    CheckoutFile(c, k);
    hide *;
    SentShape(rows, c.migrations[k], p);
    Beginning(c, table);
    w := Started(c, table);
    w := ReadHistory(c, table, rows);
    AfterReading(c, rows);
    w := SentNext(c, table, AfterRead(Newcomer(c), rows), k, p);
    IsReady(w, p, rows, table);
  }

  lemma NextAfter(c: Checkout, k: nat)
    requires IsCheckout(c) && k < |c.migrations| && RowVersions(FirstRows(c, k)) == VersionsOf(c.migrations)[..k]
    ensures IsNext(AfterRead(Newcomer(c), FirstRows(c, k)), k)
  {
    CheckoutAscends(c);
    hide IsCheckout, Ascending;
    var versions := VersionsOf(c.migrations);
    FirstMissing(versions, k, k);
    assert forall i :: 0 <= i <= k ==> versions[i] == c.migrations[i].version;
  }

  lemma LandsTwice(c: Checkout, k: nat) returns (w: World)
    requires IsCheckout(c) && ManifestMatches(c) && k < |c.migrations| && LeftCommit(c.migrations[k])
    ensures Reached(c, w) && w.applied == [c.migrations[k], c.migrations[k]]
  {
    assert ([] + [c.migrations[k]]) + [c.migrations[k]] == [c.migrations[k], c.migrations[k]];
    hide *;
    var p;
    w, p := Sent(c, k);
    FirstRowsArePrefix(c, k);
    CheckoutFile(c, k);
    LeftIsEarly(c, k, p);
    w := LandsAgain(c, w, p);
    w := LandsAgain(c, w, p);
  }

  lemma LeftIsEarly(c: Checkout, k: nat, p: Posted)
    requires k < |c.migrations| && LeftCommit(c.migrations[k]) && AllRows(FirstRows(c, k))
    requires IsRow(RowOf(c.migrations[k])) && FromFile(c.migrations[k])
    requires p.asked == Guarded(FirstRows(c, k), c.migrations[k]) && ReadRightly(p)
    ensures p.read.early
  {
    hide *;
    SentShape(FirstRows(c, k), c.migrations[k], p);
  }

  /** Exactly when: however its deployers run, no body of a checkout lands twice, if and only if no file of it leaves its
      COMMIT in the body as a statement. */
  lemma AtMostOnceExactlyWhenClean(c: Checkout)
    requires IsCheckout(c) && ManifestMatches(c)
    ensures AppliesAtMostOnce(c) <==> Clean(c)
  {
    hide IsRun, OnlyFrom, ManifestMatches, LeftCommit, IsCheckout;
    if Clean(c) {
      forall run | IsRun(run) && OnlyFrom(c, run) ensures run != [] && NoneTwice(Last(run).applied) {
        OnceWhenClean(c, run);
      }
    } else {
      var k: nat :| k < |c.migrations| && LeftCommit(c.migrations[k]);
      var w := LandsTwice(c, k);
      assert w.applied[0] == w.applied[1];
      var run :| IsRun(run) && OnlyFrom(c, run) && EndsIn(run, w);
      assert !NoneTwice(Last(run).applied);
    }
  }

  lemma OnceWhenClean(c: Checkout, run: seq<World>)
    requires IsRun(run) && OnlyFrom(c, run) && Clean(c)
    ensures run != [] && NoneTwice(Last(run).applied)
  {
    assert CleanRun(run);
    assert run != [];
    hide IsRun, Clean, CleanRun;
    ExactlyOnce(run, |run| - 1);
  }

  // ---------------------------------------------------------------------------------------------
  // One migration among others
  // ---------------------------------------------------------------------------------------------

  /** Two landings of one version are of bodies one of which left its COMMIT. */
  ghost predicate RepeatsOnlyLeft(applied: seq<Migration>) {
    forall a, b :: 0 <= a < b < |applied| && applied[a].version == applied[b].version ==>
      LeftCommit(applied[a]) || LeftCommit(applied[b])
  }

  /** Only bodies that left their COMMIT are without a row, or can be by what is in flight. */
  ghost predicate LandsWithRow(w: World) {
    && (forall a :: 0 <= a < |w.applied| && !LeftCommit(w.applied[a]) ==> w.applied[a].version in w.table)
    && RepeatsOnlyLeft(w.applied)
    && (forall i :: 0 <= i < |w.requests| && w.requests[i].read.early ==> LeftCommit(w.requests[i].asked.migration))
  }

  lemma LandsWithRowKept(w: World, step: Step)
    requires LandsWithRow(w) && Informed(w) && Enabled(w, step) && ReadsSent(step)
    ensures LandsWithRow(Apply(w, step))
  {
    hide LeftCommit, GuardPasses, Lists, ValidateHistory, IsCheckout, AllRows, IsNext, SoundDeployer, ReadRightly;
    if step.Send? { SentLeaves(w, step); }
  }

  lemma SentLeaves(w: World, step: Step)
    requires SoundDeployers(w) && step.Send? && Enabled(w, step) && ReadsSent(step)
    ensures step.request.read.early ==> LeftCommit(step.request.asked.migration)
  {
    var d := w.deployers[step.id];
    assert SoundDeployer(w, d);
    assert IsRow(RowOf(d.checkout.migrations[step.k])) && FromFile(d.checkout.migrations[step.k]);
    hide IsNext, IsRow, AllRows, FromFile, ReadRightly, Swallowing, LeftCommit, IsCheckout;
    SentShape(d.known, d.checkout.migrations[step.k], step.request);
  }

  lemma {:induction false} LandsWithRowThroughout(run: seq<World>, i: nat)
    requires IsRun(run) && i < |run|
    ensures LandsWithRow(run[i])
  {
    hide Enabled, Apply, ReadsSent, Next, Informed, LeftCommit;
    if i > 0 {
      hide IsRun, LandsWithRow;
      LandsWithRowThroughout(run, i - 1);
      InformedThroughout(run, i - 1);
      var step := LastStep(run, i);
      LandsWithRowKept(run[i - 1], step);
    }
  }

  /** Whatever the other files of this checkout leave in their bodies, and of any others that take part: a body whose own
      file does not leave its COMMIT lands at most once. */
  lemma LandsAtMostOnce(run: seq<World>, i: nat, a: nat, b: nat)
    requires IsRun(run) && i < |run| && a < b < |run[i].applied| && !LeftCommit(run[i].applied[a])
    ensures run[i].applied[b] != run[i].applied[a]
    ensures !LeftCommit(run[i].applied[b]) ==> run[i].applied[b].version != run[i].applied[a].version
  {
    hide IsRun, LeftCommit;
    LandsWithRowThroughout(run, i);
  }

  ghost predicate OnceIn(applied: seq<Migration>, m: Migration) {
    forall a, b :: 0 <= a < b < |applied| ==> !(applied[a] == m && applied[b] == m)
  }

  /** However deployers of this checkout run, this body does not land twice. */
  ghost predicate LandsOnce(c: Checkout, m: Migration) {
    forall run :: IsRun(run) && OnlyFrom(c, run) ==> run != [] && OnceIn(Last(run).applied, m)
  }

  /** Exactly when, migration by migration: its body never lands twice if and only if its own file does not leave its
      COMMIT in the body, whatever the other files of the checkout do. */
  lemma LandsOnceExactlyWhenNotLeft(c: Checkout, k: nat)
    requires IsCheckout(c) && ManifestMatches(c) && k < |c.migrations|
    ensures LandsOnce(c, c.migrations[k]) <==> !LeftCommit(c.migrations[k])
  {
    hide IsRun, OnlyFrom, ManifestMatches, LeftCommit, IsCheckout;
    var m := c.migrations[k];
    if LeftCommit(m) {
      var w := LandsTwice(c, k);
      var run :| IsRun(run) && OnlyFrom(c, run) && EndsIn(run, w);
      assert w.applied[0] == m && w.applied[1] == m;
      assert !OnceIn(Last(run).applied, m);
    } else {
      forall run | IsRun(run) && OnlyFrom(c, run) ensures run != [] && OnceIn(Last(run).applied, m) {
        OnceWhenNotLeft(run, m);
      }
    }
  }

  lemma OnceWhenNotLeft(run: seq<World>, m: Migration)
    requires IsRun(run) && !LeftCommit(m)
    ensures run != [] && OnceIn(Last(run).applied, m)
  {
    assert run != [];
    hide IsRun, LeftCommit;
    var applied := Last(run).applied;
    forall a, b | 0 <= a < b < |applied| ensures !(applied[a] == m && applied[b] == m) {
      if applied[a] == m { LandsAtMostOnce(run, |run| - 1, a, b); }
    }
  }

  // ---------------------------------------------------------------------------------------------
  // A body that never lands
  // ---------------------------------------------------------------------------------------------

  /** Nothing of a migration that swallows its receipt has been committed, or can be by what is in flight. */
  ghost predicate NothingSwallowed(w: World) {
    && (forall a :: 0 <= a < |w.applied| ==> !Swallowing(w.applied[a]))
    && (forall i :: 0 <= i < |w.requests| && Swallowing(w.requests[i].asked.migration) ==>
          !w.requests[i].read.whole && !w.requests[i].read.early)
    && (forall i :: i in w.committed && i < |w.requests| ==> !Swallowing(w.requests[i].asked.migration))
    && (forall i :: i in w.committed ==> i < |w.requests|)
    && (forall s :: s in w.sessions && w.sessions[s].stage == Landed && w.sessions[s].request < |w.requests| ==>
          !Swallowing(w.requests[w.sessions[s].request].asked.migration))
    && (forall s :: s in w.sessions ==> w.sessions[s].request < |w.requests|)
  }

  lemma NothingSwallowedKept(w: World, step: Step)
    requires NothingSwallowed(w) && Informed(w) && Enabled(w, step) && ReadsSent(step)
    ensures NothingSwallowed(Apply(w, step))
  {
    hide Swallowing, GuardPasses, Lists, ValidateHistory, IsCheckout, AllRows, IsNext, SoundDeployer, ReadRightly;
    if step.Send? { SentSwallows(w, step); }
  }

  lemma SentSwallows(w: World, step: Step)
    requires SoundDeployers(w) && step.Send? && Enabled(w, step) && ReadsSent(step)
    ensures Swallowing(step.request.asked.migration) ==> !step.request.read.whole && !step.request.read.early
  {
    var d := w.deployers[step.id];
    assert SoundDeployer(w, d);
    assert IsRow(RowOf(d.checkout.migrations[step.k])) && FromFile(d.checkout.migrations[step.k]);
    hide IsNext, IsRow, AllRows, FromFile, ReadRightly, Swallowing, LeftCommit, IsCheckout;
    SentShape(d.known, d.checkout.migrations[step.k], step.request);
  }

  /** A migration that swallows its receipt never lands, and no deployer ever gets a reply for it. */
  lemma {:induction false} SwallowingNeverLands(run: seq<World>, i: nat)
    requires IsRun(run) && i < |run|
    ensures NothingSwallowed(run[i])
  {
    hide Enabled, Apply, ReadsSent, Next, Informed, Swallowing;
    if i > 0 {
      hide IsRun, NothingSwallowed;
      SwallowingNeverLands(run, i - 1);
      InformedThroughout(run, i - 1);
      var step := LastStep(run, i);
      NothingSwallowedKept(run[i - 1], step);
    }
  }

  // ---------------------------------------------------------------------------------------------
  // Exactly which migrations are deployed
  // ---------------------------------------------------------------------------------------------

  /** Its receipt cannot be written with the body, nor the body be committed before it. */
  ghost predicate Stuck(m: Migration) {
    !LeftCommit(m) && !(WholeFile(m) && !LeavesFragment(m.body))
  }

  /** Nothing of such a migration has been committed, or can be by what is in flight. */
  ghost predicate NothingStuck(w: World) {
    && (forall a :: 0 <= a < |w.applied| ==> !Stuck(w.applied[a]))
    && (forall i :: 0 <= i < |w.requests| && Stuck(w.requests[i].asked.migration) ==>
          (!w.requests[i].read.whole || w.requests[i].read.row.None?) && !w.requests[i].read.early)
  }

  lemma NothingStuckKept(w: World, step: Step)
    requires NothingStuck(w) && Informed(w) && Enabled(w, step) && ReadsSent(step)
    ensures NothingStuck(Apply(w, step))
  {
    hide Stuck, GuardPasses, Lists, ValidateHistory, IsCheckout, AllRows, IsNext, SoundDeployer, ReadRightly;
    if step.Send? { SentStuck(w, step); }
  }

  lemma SentStuck(w: World, step: Step)
    requires SoundDeployers(w) && step.Send? && Enabled(w, step) && ReadsSent(step)
    ensures Stuck(step.request.asked.migration) ==>
      (!step.request.read.whole || step.request.read.row.None?) && !step.request.read.early
  {
    hide IsNext, IsRow, AllRows, FromFile, ReadRightly, Swallowing, LeftCommit, WholeFile, LeavesFragment, IsCheckout;
    var d := w.deployers[step.id];
    assert SoundDeployer(w, d);
    NextFits(d, step.k);
    CheckoutFile(d.checkout, step.k);
    SentShape(d.known, d.checkout.migrations[step.k], step.request);
  }

  /** Such a migration never lands. */
  lemma {:induction false} StuckNeverLands(run: seq<World>, i: nat)
    requires IsRun(run) && i < |run|
    ensures NothingStuck(run[i])
  {
    hide Enabled, Apply, ReadsSent, Next, Informed, Stuck;
    if i > 0 {
      hide IsRun, NothingStuck;
      StuckNeverLands(run, i - 1);
      InformedThroughout(run, i - 1);
      var step := LastStep(run, i);
      NothingStuckKept(run[i - 1], step);
    }
  }

  /** Some run of this checkout's deployers lands the body. */
  ghost predicate CanLand(c: Checkout, m: Migration) {
    exists run :: IsRun(run) && OnlyFrom(c, run) && run != [] && m in Last(run).applied
  }

  lemma LandsWhole(c: Checkout, k: nat) returns (w: World)
    requires IsCheckout(c) && ManifestMatches(c) && k < |c.migrations|
    requires WholeFile(c.migrations[k]) && !LeavesFragment(c.migrations[k].body)
    ensures Reached(c, w) && w.applied == [c.migrations[k]]
  {
    hide *;
    var p;
    w, p := Sent(c, k);
    ReadsWhole(c, k, w, p);
    w := LandsNow(c, w, p);
    assert [] + [c.migrations[k]] == [c.migrations[k]];
  }

  /** Body and receipt are committed together. */
  lemma LandsNow(c: Checkout, w: World, p: Posted) returns (u: World)
    requires Reached(c, w) && Ready(w, p) && p.read.whole && p.read.row.Some? && p.read.row.value.version !in w.table
    ensures Reached(c, u) && u.applied == w.applied + [p.asked.migration]
  {
    hide Reached, GuardPasses, IsNext, ReadRightly, IsCheckout, ValidateHistory, Lists, AllRows;
    var written := WritesAgain(c, w, p);
    u := GoOn(c, written, Commit(0));
  }

  lemma ReadsWhole(c: Checkout, k: nat, w: World, p: Posted)
    requires IsCheckout(c) && ManifestMatches(c) && k < |c.migrations|
    requires WholeFile(c.migrations[k]) && !LeavesFragment(c.migrations[k].body)
    requires p.asked == Guarded(FirstRows(c, k), c.migrations[k]) && ReadRightly(p) && Ready(w, p)
    ensures p.read.whole && p.read.row.Some? && p.read.row.value.version !in w.table
  {
    hide IsCheckout, WholeFile, LeftCommit, Swallowing, LeavesFragment, FromFile, IsRow, AllRows, ReadRightly, ManifestMatches;
    FirstRowsArePrefix(c, k);
    CheckoutFile(c, k);
    SentShape(FirstRows(c, k), c.migrations[k], p);
    CheckoutAscends(c);
    MissingAfter(c, k, w.table);
  }

  lemma MissingAfter(c: Checkout, k: nat, table: Table)
    requires Ascending(VersionsOf(c.migrations)) && k < |c.migrations|
    requires RowVersions(FirstRows(c, k)) == VersionsOf(c.migrations)[..k] && GuardPasses(table, FirstRows(c, k))
    ensures c.migrations[k].version !in table
  {
    hide GuardPasses;
    var versions := VersionsOf(c.migrations);
    assert Ascending(versions[..k]);
    GuardCovers(table, FirstRows(c, k));
    if versions[k] in table {
      var i :| 0 <= i < k && RowVersions(FirstRows(c, k))[i] == versions[k];
      AscendingDistinct(versions, i, k);
    }
  }

  /** Exactly when: some run lands a migration of the checkout if and only if its file leaves its COMMIT in the body, or
      keeps its COMMIT out of comments and leaves no fragment before it. */
  lemma LandsExactlyWhenNotStuck(c: Checkout, k: nat)
    requires IsCheckout(c) && ManifestMatches(c) && k < |c.migrations|
    ensures CanLand(c, c.migrations[k]) <==> !Stuck(c.migrations[k])
  {
    hide IsRun, OnlyFrom, ManifestMatches, LeftCommit, WholeFile, LeavesFragment, IsCheckout;
    var m := c.migrations[k];
    if LeftCommit(m) {
      var w := LandsTwice(c, k);
      var run :| IsRun(run) && OnlyFrom(c, run) && EndsIn(run, w);
      assert w.applied[0] == m;
    } else if WholeFile(m) && !LeavesFragment(m.body) {
      var w := LandsWhole(c, k);
      var run :| IsRun(run) && OnlyFrom(c, run) && EndsIn(run, w);
      assert w.applied[0] == m;
    } else if CanLand(c, m) {
      var run :| IsRun(run) && OnlyFrom(c, run) && run != [] && m in Last(run).applied;
      StuckNeverLands(run, |run| - 1);
    }
  }

  /** Exactly once: some run lands a migration of the checkout and none lands it twice, if and only if its file keeps its
      COMMIT out of comments and leaves no fragment before it. */
  lemma ExactlyOnceExactlyWhenWhole(c: Checkout, k: nat)
    requires IsCheckout(c) && ManifestMatches(c) && k < |c.migrations|
    ensures CanLand(c, c.migrations[k]) && LandsOnce(c, c.migrations[k])
       <==> WholeFile(c.migrations[k]) && !LeavesFragment(c.migrations[k].body)
  {
    hide CanLand, LandsOnce, ManifestMatches, LeftCommit, WholeFile, LeavesFragment, IsCheckout;
    LandsExactlyWhenNotStuck(c, k);
    LandsOnceExactlyWhenNotLeft(c, k);
    WholeIsNotLeft(c, k);
  }

  lemma WholeIsNotLeft(c: Checkout, k: nat)
    requires IsCheckout(c) && k < |c.migrations|
    ensures !(WholeFile(c.migrations[k]) && LeftCommit(c.migrations[k]))
  {
    hide IsCheckout, WholeFile, LeftCommit, Swallowing, LeavesFragment, FromFile, IsRow, ReadingOf;
    var r := Guarded([], c.migrations[k]);
    CheckoutFile(c, k);
    NothingListed(c);
    ReadsItself(Posted(r, ReadingOf(r)));
    SentShape([], c.migrations[k], Posted(r, ReadingOf(r)));
  }

  // ---------------------------------------------------------------------------------------------
  // All kinds are there
  // ---------------------------------------------------------------------------------------------

  function OneFile(body: string): Checkout {
    Checkout([Migration(seq(12, _ => '1'), seq(64, _ => 'a'), body)], {})
  }

  lemma OneFileIsCheckout(sql: string)
    requires Unwrap(sql).Ok?
    ensures IsCheckout(OneFile(Unwrap(sql).value)) && ManifestMatches(OneFile(Unwrap(sql).value))
  {
    hide Unwrap;
    var m := OneFile(Unwrap(sql).value).migrations[0];
    assert IsRow(RowOf(m)) && FromFile(m);
  }

  /** An accepted checkout of one file, whose body a run lands twice. */
  lemma SomeCheckoutLandsTwice() returns (c: Checkout, w: World)
    ensures IsCheckout(c) && ManifestMatches(c) && |c.migrations| == 1 && LeftCommit(c.migrations[0])
    ensures Reached(c, w) && w.applied == [c.migrations[0], c.migrations[0]]
    ensures !AppliesAtMostOnce(c)
  {
    c := OneFile("a;commit;--");
    CommentedCommitIsAccepted();
    OneFileIsCheckout(COMMENTED);
    assert LeftCommit(c.migrations[0]);
    assert !Clean(c);
    hide *;
    w := LandsTwice(c, 0);
    AtMostOnceExactlyWhenClean(c);
  }

  /** And one of one file, whose body lands in no run. */
  lemma SomeCheckoutNeverLands() returns (c: Checkout)
    ensures IsCheckout(c) && ManifestMatches(c) && |c.migrations| == 1 && Swallowing(c.migrations[0])
    ensures forall run: seq<World>, i :: IsRun(run) && 0 <= i < |run| ==> c.migrations[0] !in run[i].applied
  {
    c := OneFile("a;commit--");
    SwallowedCommitIsAccepted();
    OneFileIsCheckout(SWALLOWED);
    assert Swallowing(c.migrations[0]);
    hide IsRun, Swallowing, IsCheckout, ManifestMatches;
    forall run: seq<World>, i | IsRun(run) && 0 <= i < |run| ensures c.migrations[0] !in run[i].applied {
      SwallowingNeverLands(run, i);
    }
  }

  /** One whose body is deployed exactly once, from nothing. */
  lemma SomeCheckoutDeploys() returns (c: Checkout, run: seq<World>)
    ensures IsCheckout(c) && |c.migrations| == 1 && CanLand(c, c.migrations[0]) && LandsOnce(c, c.migrations[0])
    ensures IsRun(run) && run[0].table == map[] && run[|run| - 1].applied == c.migrations
  {
    hide *;
    c := PlainFile();
    ExactlyOnceExactlyWhenWhole(c, 0);
    OnlyDeployable(c);
    run := FreshProjectDeploys(c);
  }

  lemma PlainFile() returns (c: Checkout)
    ensures IsCheckout(c) && ManifestMatches(c) && |c.migrations| == 1
    ensures WholeFile(c.migrations[0]) && !LeavesFragment(c.migrations[0].body)
  {
    hide LeavesFragment, IsCheckout, ManifestMatches, Unwrap, CommitCommentedOut;
    c := OneFile("a;");
    PlainCommitIsAccepted();
    OneFileIsCheckout(PLAIN);
  }

  lemma OnlyDeployable(c: Checkout)
    requires |c.migrations| == 1 && WholeFile(c.migrations[0]) && !LeavesFragment(c.migrations[0].body)
    ensures forall i :: 0 <= i < |c.migrations| ==> IsDeployable(c.migrations[i])
  {
    hide LeavesFragment, WholeFile;
  }

  /** And one that leaves a fragment, which is never deployed. */
  lemma SomeFragmentNeverLands() returns (c: Checkout)
    ensures IsCheckout(c) && ManifestMatches(c) && |c.migrations| == 1
    ensures WholeFile(c.migrations[0]) && LeavesFragment(c.migrations[0].body) && !CanLand(c, c.migrations[0])
  {
    c := OneFile("a;1");
    FragmentIsAccepted();
    OneFileIsCheckout(FRAGMENT);
    assert WholeFile(c.migrations[0]) && LeavesFragment(c.migrations[0].body);
    hide WholeFile, LeftCommit, LeavesFragment, IsCheckout, ManifestMatches, CanLand, OneFile;
    WholeIsNotLeft(c, 0);
    LandsExactlyWhenNotStuck(c, 0);
  }
}
