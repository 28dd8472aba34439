/** The customer billing ledger: concurrent transactions under the PostgreSQL trigger, against the serial rule of the
    SQLite trigger. */
module Billing {
  import opened Sets

  datatype Kind = Charge | Credit | Payment

  /** An invoice in its organization. */
  datatype Key = Key(organization: int, invoice: int)

  datatype Entry = Entry(key: Key, kind: Kind, amount: int)

  /** `ck_customer_billing_amount_positive` */
  predicate Admissible(e: Entry) {
    e.amount > 0
  }

  function Signed(e: Entry): int {
    if e.kind == Charge then e.amount else -e.amount
  }

  /** What is outstanding on an invoice: charges minus credits and payments. */
  function Outstanding(ledger: seq<Entry>, key: Key): int {
    if ledger == [] then 0
    else
      var last := ledger[|ledger| - 1];
      Outstanding(ledger[..|ledger| - 1], key) + (if last.key == key then Signed(last) else 0)
  }

  /** The serial rule: a credit or payment may not exceed what is outstanding when it is inserted. */
  predicate SerialAdmits(ledger: seq<Entry>, e: Entry) {
    e.kind == Charge || e.amount <= Outstanding(ledger, e.key)
  }

  /** Inserting the entries one by one after the ledger, the serial trigger never aborts for this invoice. */
  predicate SerialAccepts(key: Key, ledger: seq<Entry>, entries: seq<Entry>) {
    forall i :: 0 <= i < |entries| && entries[i].key == key ==> SerialAdmits(ledger + entries[..i], entries[i])
  }

  // ---------------------------------------------------------------------------------------------
  // Transactions
  // ---------------------------------------------------------------------------------------------

  /** Where a transaction stands in its trigger: past the locking statement, or past the sum as well. Tickets number the
      triggers of credits and payments in the order in which they begin. */
  datatype Point = Idle | Locked(entry: Entry, ticket: nat) | Summed(entry: Entry, ticket: nat, outstanding: int)

  /** A transaction's own uncommitted rows, the invoice rows it has locked, and its place in the trigger. */
  datatype Transaction = Transaction(rows: seq<Entry>, locks: set<Key>, point: Point)

  /** `invoices` are the committed invoices, `ledger` the committed entries in the order of the commits. */
  datatype Database = Database(invoices: set<Key>, ledger: seq<Entry>, active: map<nat, Transaction>, tickets: nat)

  datatype Step =
    | Begin(t: nat)
    | IssueInvoice(key: Key, charges: seq<Entry>)
    | ReadForUpdate(t: nat, key: Key)
    | InsertCharge(t: nat, entry: Entry)
    | LockInvoice(t: nat, entry: Entry)
    | ReadSum(t: nat)
    | InsertSummed(t: nat)
    | RaiseExceeds(t: nat)
    | Commit(t: nat)
    | Abort(t: nat)

  ghost predicate HoldsLock(db: Database, t: nat, key: Key) {
    t in db.active && key in db.active[t].locks
  }

  /** The foreign-key check of an entry keeps FOR KEY SHARE on the invoice until its transaction ends. */
  ghost predicate Shares(db: Database, t: nat, key: Key) {
    t in db.active && OnInvoice(db.active[t].rows, key)
  }

  predicate OnInvoice(rows: seq<Entry>, key: Key) {
    exists i :: 0 <= i < |rows| && rows[i].key == key
  }

  predicate AreCharges(charges: seq<Entry>, key: Key) {
    forall i :: 0 <= i < |charges| ==> charges[i].key == key && charges[i].kind == Charge && Admissible(charges[i])
  }

  /** The foreign key finds the invoice, and does not wait for a FOR UPDATE of another transaction. */
  ghost predicate MayInsert(db: Database, t: nat, key: Key) {
    key in db.invoices && forall u :: u != t ==> !HoldsLock(db, u, key)
  }

  /** FOR UPDATE waits while another transaction holds the row in either way; where there is no row to see, there is
      nothing to wait for. */
  ghost predicate MayLock(db: Database, t: nat, key: Key) {
    key in db.invoices ==> forall u :: u != t ==> !HoldsLock(db, u, key) && !Shares(db, u, key)
  }

  ghost predicate Enabled(db: Database, step: Step) {
    match step
    case Begin(t) => t !in db.active
    // The transaction that issues an invoice charges it and becomes visible as a whole.
    case IssueInvoice(key, charges) => key !in db.invoices && AreCharges(charges, key)
    // A reader, unlike the trigger, sees whether there is an invoice, and stops if there is none.
    case ReadForUpdate(t, key) => t in db.active && db.active[t].point == Idle && key in db.invoices && MayLock(db, t, key)
    case InsertCharge(t, e) =>
      t in db.active && db.active[t].point == Idle && e.kind == Charge && Admissible(e) && MayInsert(db, t, e.key)
    // The trigger does not look whether it found a row.
    case LockInvoice(t, e) =>
      t in db.active && db.active[t].point == Idle && e.kind != Charge && Admissible(e) && MayLock(db, t, e.key)
    case ReadSum(t) => t in db.active && db.active[t].point.Locked?
    // The foreign key is checked when the statement ends.
    case InsertSummed(t) =>
      t in db.active && db.active[t].point.Summed? && db.active[t].point.entry.amount <= db.active[t].point.outstanding
      && MayInsert(db, t, db.active[t].point.entry.key)
    case RaiseExceeds(t) =>
      t in db.active && db.active[t].point.Summed? && db.active[t].point.entry.amount > db.active[t].point.outstanding
    case Commit(t) => t in db.active && db.active[t].point == Idle
    case Abort(t) => t in db.active
  }

  ghost function Apply(db: Database, step: Step): Database
    requires Enabled(db, step)
  {
    match step
    case Begin(t) => db.(active := db.active[t := Transaction([], {}, Idle)])
    case IssueInvoice(key, charges) => db.(invoices := db.invoices + {key}, ledger := db.ledger + charges)
    case ReadForUpdate(t, key) => With(db, t, db.active[t].(locks := db.active[t].locks + {key}))
    case InsertCharge(t, e) => With(db, t, db.active[t].(rows := db.active[t].rows + [e]))
    case LockInvoice(t, e) =>
      var x := db.active[t].(locks := db.active[t].locks + ({e.key} * db.invoices), point := Locked(e, db.tickets));
      With(db, t, x).(tickets := db.tickets + 1)
    // READ COMMITTED: the sum sees what is committed by now and the transaction's own rows.
    case ReadSum(t) =>
      var x := db.active[t];
      var sum := Outstanding(db.ledger + x.rows, x.point.entry.key);
      With(db, t, x.(point := Summed(x.point.entry, x.point.ticket, sum)))
    case InsertSummed(t) =>
      var x := db.active[t];
      With(db, t, x.(rows := x.rows + [x.point.entry], point := Idle))
    // The exception ends the transaction, which frees its locks; so do commit and abort.
    case RaiseExceeds(t) => db.(active := db.active - {t})
    case Commit(t) => db.(ledger := db.ledger + db.active[t].rows, active := db.active - {t})
    case Abort(t) => db.(active := db.active - {t})
  }

  function With(db: Database, t: nat, x: Transaction): Database {
    db.(active := db.active[t := x])
  }

  // ---------------------------------------------------------------------------------------------
  // Sums
  // ---------------------------------------------------------------------------------------------

  lemma {:induction false} OutstandingConcat(a: seq<Entry>, b: seq<Entry>, key: Key)
    ensures Outstanding(a + b, key) == Outstanding(a, key) + Outstanding(b, key)
    decreases |b|
  {
    if b == [] {
      assert a + b == a;
    } else {
      var n := |b| - 1;
      assert (a + b)[..|a + b| - 1] == a + b[..n];
      OutstandingConcat(a, b[..n], key);
    }
  }

  /** Only credits and payments lower what is outstanding. */
  lemma {:induction false} ChargesOnly(rows: seq<Entry>, key: Key)
    requires forall i :: 0 <= i < |rows| && rows[i].key == key ==> rows[i].kind == Charge && Admissible(rows[i])
    ensures Outstanding(rows, key) >= 0
  {
    if rows != [] { ChargesOnly(rows[..|rows| - 1], key); }
  }

  lemma OutstandingAppend(ledger: seq<Entry>, e: Entry, key: Key)
    ensures Outstanding(ledger + [e], key) == Outstanding(ledger, key) + (if e.key == key then Signed(e) else 0)
  {
    assert (ledger + [e])[..|ledger + [e]| - 1] == ledger;
  }

  // ---------------------------------------------------------------------------------------------
  // The invariant
  // ---------------------------------------------------------------------------------------------

  ghost predicate ExclusiveLocks(db: Database) {
    forall t, u, key :: t != u && HoldsLock(db, t, key) ==> !HoldsLock(db, u, key)
  }

  /** The foreign key to the invoices. */
  ghost predicate InvoicesExist(invoices: set<Key>, rows: seq<Entry>) {
    forall i :: 0 <= i < |rows| ==> rows[i].key in invoices
  }

  ghost predicate AllInvoicesExist(db: Database) {
    && InvoicesExist(db.invoices, db.ledger)
    && (forall t :: t in db.active ==> InvoicesExist(db.invoices, db.active[t].rows))
  }

  /** What a trigger runs for is a credit or payment of a positive amount; if it found no row to lock, its transaction
      has no entry on the invoice yet. */
  ghost predicate TriggerFits(invoices: set<Key>, x: Transaction) {
    && x.locks <= invoices
    && (x.point != Idle ==> x.point.entry.kind != Charge && Admissible(x.point.entry))
    && (x.point != Idle && x.point.entry.key !in x.locks ==>
          forall i :: 0 <= i < |x.rows| ==> x.rows[i].key != x.point.entry.key)
  }

  ghost predicate TriggersFit(db: Database) {
    forall t :: t in db.active ==> TriggerFits(db.invoices, db.active[t])
  }

  /** Who holds an invoice's lock is the only one with entries on it. */
  ghost predicate LocksExclude(db: Database) {
    forall t, u, key :: t != u && HoldsLock(db, t, key) ==> !Shares(db, u, key)
  }

  /** The first has found nothing to lock, and must wait for the second, which has the lock now, before it inserts. */
  ghost predicate WaitsFor(db: Database, t: nat, u: nat) {
    && t in db.active && u in db.active
    && db.active[t].point != Idle && db.active[t].point.entry.key !in db.active[t].locks
    && db.active[t].point.entry.key in db.active[u].locks
  }

  /** Nobody waits for a trigger that began earlier, so triggers do not wait for one another in a circle. */
  ghost predicate TicketsFit(db: Database) {
    && (forall t :: t in db.active && db.active[t].point != Idle ==> db.active[t].point.ticket < db.tickets)
    && (forall t, u :: WaitsFor(db, t, u) && db.active[u].point != Idle ==>
          db.active[t].point.ticket < db.active[u].point.ticket)
  }

  /** What holds in every reachable state, whether triggers find their invoices or not. */
  ghost predicate Regular(db: Database) {
    ExclusiveLocks(db) && AllInvoicesExist(db) && TriggersFit(db) && LocksExclude(db) && TicketsFit(db)
  }

  lemma LocksKept(db: Database, step: Step)
    requires ExclusiveLocks(db) && Enabled(db, step)
    ensures ExclusiveLocks(Apply(db, step))
  {
    hide Outstanding, OnInvoice;
    var after := Apply(db, step);
    forall t, u, key | t != u && HoldsLock(after, t, key) ensures !HoldsLock(after, u, key) {
      LockIsOldOrTaken(db, step, t, key);
      if HoldsLock(after, u, key) { LockIsOldOrTaken(db, step, u, key); }
    }
  }

  lemma LockIsOldOrTaken(db: Database, step: Step, t: nat, key: Key)
    requires Enabled(db, step) && HoldsLock(Apply(db, step), t, key)
    ensures HoldsLock(db, t, key) || (step.LockInvoice? && step.t == t && step.entry.key == key && key in db.invoices)
         || step == ReadForUpdate(t, key)
  {
    hide Outstanding;
  }

  lemma InvoicesKept(db: Database, step: Step)
    requires AllInvoicesExist(db) && Enabled(db, step)
    ensures AllInvoicesExist(Apply(db, step))
  {
    hide Outstanding;
  }

  lemma TriggersKept(db: Database, step: Step)
    requires AllInvoicesExist(db) && TriggersFit(db) && Enabled(db, step)
    ensures TriggersFit(Apply(db, step))
  {
    hide Outstanding, OnInvoice;
    var after := Apply(db, step);
    forall t | t in after.active ensures TriggerFits(after.invoices, after.active[t]) {
      if t in db.active { assert TriggerFits(db.invoices, db.active[t]); }
    }
  }

  lemma ExclusionKept(db: Database, step: Step)
    requires LocksExclude(db) && AllInvoicesExist(db) && TriggersFit(db) && Enabled(db, step)
    ensures LocksExclude(Apply(db, step))
  {
    hide Outstanding, OnInvoice;
    var after := Apply(db, step);
    forall t, u, key | t != u && HoldsLock(after, t, key) ensures !Shares(after, u, key) {
      LockIsOldOrTaken(db, step, t, key);
      if Shares(after, u, key) { ShareIsOldOrTaken(db, step, u, key); }
    }
  }

  lemma ShareIsOldOrTaken(db: Database, step: Step, t: nat, key: Key)
    requires Enabled(db, step) && Shares(Apply(db, step), t, key)
    ensures Shares(db, t, key) || (step.InsertCharge? && step.t == t && step.entry.key == key)
         || (step.InsertSummed? && step.t == t && db.active[t].point.entry.key == key)
  {
    hide Outstanding, MayLock, MayInsert;
    if step.InsertCharge? && step.t == t { OnLonger(db.active[t].rows, step.entry, key); }
    if step.InsertSummed? && step.t == t { OnLonger(db.active[t].rows, db.active[t].point.entry, key); }
  }

  lemma OnLonger(rows: seq<Entry>, e: Entry, key: Key)
    ensures OnInvoice(rows + [e], key) <==> OnInvoice(rows, key) || e.key == key
  {
    var more := rows + [e];
    if i :| 0 <= i < |rows| && rows[i].key == key { assert more[i].key == key; }
    assert more[|rows|] == e;
  }

  lemma TicketsKept(db: Database, step: Step)
    requires TicketsFit(db) && TriggersFit(db) && Enabled(db, step)
    ensures TicketsFit(Apply(db, step))
  {
    hide Outstanding, OnInvoice, MayLock, MayInsert;
    var after := Apply(db, step);
    forall t, u | WaitsFor(after, t, u) && after.active[u].point != Idle
      ensures after.active[t].point.ticket < after.active[u].point.ticket
    {
      WaitIsOldOrTaken(db, step, t, u);
    }
  }

  lemma WaitIsOldOrTaken(db: Database, step: Step, t: nat, u: nat)
    requires TicketsFit(db) && TriggersFit(db) && Enabled(db, step)
    requires WaitsFor(Apply(db, step), t, u) && Apply(db, step).active[u].point != Idle
    ensures Apply(db, step).active[t].point.ticket < Apply(db, step).active[u].point.ticket
  {
    hide Outstanding, OnInvoice, MayLock, MayInsert;
    if u in db.active { assert TriggerFits(db.invoices, db.active[u]); }
    if WaitsFor(db, t, u) && db.active[u].point != Idle {
      assert db.active[t].point.ticket < db.active[u].point.ticket;
    }
  }

  lemma RegularKept(db: Database, step: Step)
    requires Regular(db) && Enabled(db, step)
    ensures Regular(Apply(db, step))
  {
    LocksKept(db, step);
    InvoicesKept(db, step);
    TriggersKept(db, step);
    ExclusionKept(db, step);
    TicketsKept(db, step);
    hide *;
  }

  // ---------------------------------------------------------------------------------------------
  // Whole runs
  // ---------------------------------------------------------------------------------------------

  /** Each step is enabled where it is taken, and together they lead to `after`. */
  ghost predicate Leads(db: Database, steps: seq<Step>, after: Database)
    decreases |steps|
  {
    if steps == [] then db == after
    else Enabled(db, steps[0]) && Leads(Apply(db, steps[0]), steps[1..], after)
  }

  function Start(invoices: set<Key>): Database {
    Database(invoices, [], map[], 0)
  }

  /** A credit or payment on this invoice finds the invoice's row when it locks it. */
  ghost predicate FindsInvoice(db: Database, step: Step, key: Key) {
    step.LockInvoice? && step.entry.key == key ==> key in db.invoices
  }

  /** Along the steps, every credit and payment on this invoice finds it; those on other invoices may find nothing. */
  ghost predicate FindsInvoices(db: Database, steps: seq<Step>, key: Key)
    decreases |steps|
  {
    steps == [] || (
      && Enabled(db, steps[0])
      && FindsInvoice(db, steps[0], key)
      && FindsInvoices(Apply(db, steps[0]), steps[1..], key))
  }

  lemma {:induction false} RegularAfter(db: Database, steps: seq<Step>, after: Database)
    requires Regular(db) && Leads(db, steps, after)
    ensures Regular(after)
    decreases |steps|
  {
    hide Enabled, Apply, Regular;
    if steps != [] {
      RegularKept(db, steps[0]);
      RegularAfter(Apply(db, steps[0]), steps[1..], after);
    }
  }

  // ---------------------------------------------------------------------------------------------
  // Refining the serial rule, invoice by invoice
  // ---------------------------------------------------------------------------------------------

  /** A transaction's rows on the invoice would all be accepted now; it holds the lock if it credits the invoice, and
      what it has summed is still there. */
  ghost predicate SoundTransaction(key: Key, ledger: seq<Entry>, x: Transaction) {
    && (forall i :: 0 <= i < |x.rows| && x.rows[i].key == key ==> Admissible(x.rows[i]))
    && (forall i :: 0 <= i < |x.rows| && x.rows[i].key == key && x.rows[i].kind != Charge ==> key in x.locks)
    && SerialAccepts(key, ledger, x.rows)
    && (x.point != Idle && x.point.entry.key == key ==>
          key in x.locks && x.point.entry.kind != Charge && Admissible(x.point.entry))
    && (x.point.Summed? && x.point.entry.key == key ==> x.point.outstanding <= Outstanding(ledger + x.rows, key))
  }

  ghost predicate Sound(key: Key, db: Database) {
    && (forall t :: t in db.active ==> SoundTransaction(key, db.ledger, db.active[t]))
    && ExclusiveLocks(db)
    && SerialAccepts(key, [], db.ledger)
    && forall i :: 0 <= i < |db.ledger| && db.ledger[i].key == key ==> Admissible(db.ledger[i])
  }

  lemma AcceptsAppend(key: Key, ledger: seq<Entry>, rows: seq<Entry>, e: Entry)
    requires SerialAccepts(key, ledger, rows) && (e.key == key ==> SerialAdmits(ledger + rows, e))
    ensures SerialAccepts(key, ledger, rows + [e])
  {
    var more := rows + [e];
    forall i | 0 <= i < |more| && more[i].key == key ensures SerialAdmits(ledger + more[..i], more[i]) {
      if i < |rows| { assert more[..i] == rows[..i]; } else { assert more[..i] == rows; }
    }
  }

  lemma AcceptsConcat(key: Key, ledger: seq<Entry>, rows: seq<Entry>)
    requires SerialAccepts(key, [], ledger) && SerialAccepts(key, ledger, rows)
    ensures SerialAccepts(key, [], ledger + rows)
  {
    var all := ledger + rows;
    forall i | 0 <= i < |all| && all[i].key == key ensures SerialAdmits([] + all[..i], all[i]) {
      if i < |ledger| {
        assert [] + all[..i] == [] + ledger[..i];
      } else {
        assert [] + all[..i] == ledger + rows[..i - |ledger|];
      }
    }
  }

  /** Rows that only charge the invoice, if the transaction has locked it, leave the transaction as sound as it was. */
  lemma OthersCommit(key: Key, ledger: seq<Entry>, others: seq<Entry>, x: Transaction)
    requires SoundTransaction(key, ledger, x)
    requires forall i :: 0 <= i < |others| && others[i].key == key ==> Admissible(others[i])
    requires forall i :: 0 <= i < |others| && others[i].key == key && others[i].kind != Charge ==> key !in x.locks
    ensures SoundTransaction(key, ledger + others, x)
  {
    forall i | 0 <= i < |x.rows| && x.rows[i].key == key ensures SerialAdmits((ledger + others) + x.rows[..i], x.rows[i]) {
      if x.rows[i].kind != Charge { MoreOutstanding(ledger, others, x.rows[..i], key); }
      assert SerialAdmits(ledger + x.rows[..i], x.rows[i]);
    }
    if x.point.Summed? && x.point.entry.key == key { MoreOutstanding(ledger, others, x.rows, key); }
  }

  lemma MoreOutstanding(ledger: seq<Entry>, others: seq<Entry>, rows: seq<Entry>, key: Key)
    requires forall i :: 0 <= i < |others| && others[i].key == key ==> others[i].kind == Charge && Admissible(others[i])
    ensures Outstanding((ledger + others) + rows, key) >= Outstanding(ledger + rows, key)
  {
    ChargesOnly(others, key);
    OutstandingConcat(ledger, others, key);
    OutstandingConcat(ledger + others, rows, key);
    OutstandingConcat(ledger, rows, key);
  }

  lemma InsertKeeps(key: Key, ledger: seq<Entry>, x: Transaction, e: Entry)
    requires SoundTransaction(key, ledger, x)
    requires e.key == key ==> Admissible(e) && SerialAdmits(ledger + x.rows, e) && (e.kind != Charge ==> key in x.locks)
    ensures SoundTransaction(key, ledger, x.(rows := x.rows + [e], point := Idle))
  {
    AcceptsAppend(key, ledger, x.rows, e);
  }

  lemma ActiveKept(key: Key, db: Database, step: Step, t: nat)
    requires Sound(key, db) && Enabled(db, step) && FindsInvoice(db, step, key) && t in Apply(db, step).active
    ensures SoundTransaction(key, Apply(db, step).ledger, Apply(db, step).active[t])
  {
    if t in db.active { assert SoundTransaction(key, db.ledger, db.active[t]); }
    match step {
      case InsertCharge(u, e) => if t == u { InsertKeeps(key, db.ledger, db.active[u], e); }
      case InsertSummed(u) => if t == u { InsertKeeps(key, db.ledger, db.active[u], db.active[u].point.entry); }
      case Commit(u) => CommitKeeps(key, db, u, t);
      case IssueInvoice(_, charges) => OthersCommit(key, db.ledger, charges, db.active[t]);
      case _ =>
    }
  }

  lemma CommitKeeps(key: Key, db: Database, u: nat, t: nat)
    requires Sound(key, db) && u in db.active && t in db.active && t != u
    ensures SoundTransaction(key, db.ledger + db.active[u].rows, db.active[t])
  {
    var x, y := db.active[t], db.active[u];
    assert SoundTransaction(key, db.ledger, x) && SoundTransaction(key, db.ledger, y);
    assert key in y.locks ==> key !in x.locks by {
      assert HoldsLock(db, u, key) ==> !HoldsLock(db, t, key);
    }
    OthersCommit(key, db.ledger, y.rows, x);
  }

  lemma SoundKept(key: Key, db: Database, step: Step)
    requires Sound(key, db) && Enabled(db, step) && FindsInvoice(db, step, key)
    ensures Sound(key, Apply(db, step))
  {
    LocksKept(db, step);
    forall t | t in Apply(db, step).active
      ensures SoundTransaction(key, Apply(db, step).ledger, Apply(db, step).active[t])
    {
      ActiveKept(key, db, step, t);
    }
    if step.Commit? {
      assert SoundTransaction(key, db.ledger, db.active[step.t]);
      AcceptsConcat(key, db.ledger, db.active[step.t].rows);
    } else if step.IssueInvoice? {
      AcceptsConcat(key, db.ledger, step.charges);
    }
  }

  lemma {:induction false} SoundAfter(key: Key, db: Database, steps: seq<Step>, after: Database)
    requires Sound(key, db) && Leads(db, steps, after) && FindsInvoices(db, steps, key)
    ensures Sound(key, after)
    decreases |steps|
  {
    hide Enabled, Apply, Sound;
    if steps != [] {
      SoundKept(key, db, steps[0]);
      SoundAfter(key, Apply(db, steps[0]), steps[1..], after);
    }
  }

  /** Every interleaving in which the triggers on an invoice find it refines the serial rule on that invoice, whatever
      happens to others: replayed in the order of their commits, its entries are accepted by the SQLite trigger. */
  lemma CommitOrderIsSerial(invoices: set<Key>, steps: seq<Step>, db: Database, k: nat)
    requires Leads(Start(invoices), steps, db) && k < |db.ledger|
    requires FindsInvoices(Start(invoices), steps, db.ledger[k].key)
    ensures SerialAdmits(db.ledger[..k], db.ledger[k])
  {
    SoundAfter(db.ledger[k].key, Start(invoices), steps, db);
    assert [] + db.ledger[..k] == db.ledger[..k];
  }

  lemma {:induction false} AcceptedNeverNegative(ledger: seq<Entry>, key: Key)
    requires SerialAccepts(key, [], ledger)
    requires forall i :: 0 <= i < |ledger| && ledger[i].key == key ==> Admissible(ledger[i])
    ensures Outstanding(ledger, key) >= 0
  {
    if ledger != [] {
      var n := |ledger| - 1;
      var most := ledger[..n];
      forall i | 0 <= i < n && most[i].key == key ensures SerialAdmits([] + most[..i], most[i]) {
        assert [] + most[..i] == [] + ledger[..i];
        assert SerialAdmits([] + ledger[..i], ledger[i]);
      }
      AcceptedNeverNegative(most, key);
      assert [] + ledger[..n] == most;
      assert ledger[n].key == key ==> SerialAdmits([] + ledger[..n], ledger[n]);
    }
  }

  /** An invoice that every trigger on it found is never credited and paid beyond what was charged to it, whatever
      happens to other invoices. */
  lemma NeverOverapplied(invoices: set<Key>, steps: seq<Step>, db: Database, key: Key)
    requires Leads(Start(invoices), steps, db) && FindsInvoices(Start(invoices), steps, key)
    ensures Outstanding(db.ledger, key) >= 0
  {
    SoundAfter(key, Start(invoices), steps, db);
    AcceptedNeverNegative(db.ledger, key);
  }

  /** Whoever credits or pays this invoice reads it for update before. */
  ghost predicate ReadsFirst(db: Database, steps: seq<Step>, key: Key)
    decreases |steps|
  {
    steps == [] || (
      && Enabled(db, steps[0])
      && (steps[0].LockInvoice? && steps[0].entry.key == key ==> HoldsLock(db, steps[0].t, key))
      && ReadsFirst(Apply(db, steps[0]), steps[1..], key))
  }

  lemma {:induction false} ReadersFind(db: Database, steps: seq<Step>, after: Database, key: Key)
    requires Regular(db) && Leads(db, steps, after) && ReadsFirst(db, steps, key)
    ensures FindsInvoices(db, steps, key)
    decreases |steps|
  {
    if steps != [] {
      LockedIsVisible(db, key);
      hide Enabled, Apply, Regular, HoldsLock;
      RegularKept(db, steps[0]);
      ReadersFind(Apply(db, steps[0]), steps[1..], after, key);
    }
  }

  lemma LockedIsVisible(db: Database, key: Key)
    requires Regular(db)
    ensures forall t :: HoldsLock(db, t, key) ==> key in db.invoices
  {
    forall t | HoldsLock(db, t, key) ensures key in db.invoices {
      assert TriggerFits(db.invoices, db.active[t]);
    }
  }

  /** The discipline of the service suffices: an invoice that is read for update before every credit or payment on it is
      never overapplied, whatever happens to other invoices. */
  lemma ReadersNeverOverapply(invoices: set<Key>, steps: seq<Step>, db: Database, key: Key)
    requires Leads(Start(invoices), steps, db) && ReadsFirst(Start(invoices), steps, key)
    ensures Outstanding(db.ledger, key) >= 0
  {
    hide Leads, ReadsFirst, FindsInvoices;
    ReadersFind(Start(invoices), steps, db, key);
    NeverOverapplied(invoices, steps, db, key);
  }

  /** The foreign key holds in every reachable state. */
  lemma InvoicesAfter(invoices: set<Key>, steps: seq<Step>, db: Database)
    requires Leads(Start(invoices), steps, db)
    ensures AllInvoicesExist(db)
  {
    RegularAfter(Start(invoices), steps, db);
  }

  // ---------------------------------------------------------------------------------------------
  // An invoice that is not yet visible
  // ---------------------------------------------------------------------------------------------

  lemma {:induction false} LeadsOn(db: Database, steps: seq<Step>, middle: Database, more: seq<Step>, after: Database)
    requires Leads(db, steps, middle) && Leads(middle, more, after)
    ensures Leads(db, steps + more, after)
    decreases |steps|
  {
    if steps == [] {
      assert steps + more == more;
    } else {
      LeadsOn(Apply(db, steps[0]), steps[1..], middle, more, after);
      assert (steps + more)[1..] == steps[1..] + more;
    }
  }

  lemma {:induction false} NothingOutstanding(invoices: set<Key>, rows: seq<Entry>, key: Key)
    requires InvoicesExist(invoices, rows) && key !in invoices
    ensures Outstanding(rows, key) == 0
  {
    if rows != [] { NothingOutstanding(invoices, rows[..|rows| - 1], key); }
  }

  lemma ThenStep(db: Database, steps: seq<Step>, middle: Database, step: Step) returns (after: Database)
    requires Leads(db, steps, middle) && Enabled(middle, step)
    ensures after == Apply(middle, step) && Leads(db, steps + [step], after)
  {
    after := Apply(middle, step);
    assert Leads(after, [step][1..], after);
    LeadsOn(db, steps, middle, [step], after);
  }

  /** Both triggers have run their locking statements and found nothing to lock. */
  ghost predicate BothBlind(db: Database, t: nat, u: nat, e: Entry, n: nat) {
    && t in db.active && db.active[t] == Transaction([], {}, Locked(e, n))
    && u in db.active && db.active[u] == Transaction([], {}, Locked(e, n + 1))
  }

  /** Both have read this sum. */
  ghost predicate BothSummed(db: Database, t: nat, u: nat, e: Entry, n: nat, sum: int) {
    && t in db.active && db.active[t] == Transaction([], {}, Summed(e, n, sum))
    && u in db.active && db.active[u] == Transaction([], {}, Summed(e, n + 1, sum))
  }

  ghost predicate LockFree(db: Database, key: Key) {
    forall v :: !HoldsLock(db, v, key)
  }

  /** A payment whose invoice is not visible yet locks nothing, so a second one does not wait for it. */
  lemma BothLockNothing(db: Database, t: nat, u: nat, e: Entry) returns (after: Database)
    requires t !in db.active && u !in db.active && t != u && LockFree(db, e.key)
    requires e.kind != Charge && Admissible(e) && e.key !in db.invoices
    ensures Leads(db, [Begin(t), LockInvoice(t, e)] + [Begin(u)] + [LockInvoice(u, e)], after)
    ensures BothBlind(after, t, u, e, db.tickets) && LockFree(after, e.key)
    ensures after.invoices == db.invoices && after.ledger == db.ledger
  {
    hide Outstanding, OnInvoice;
    assert Leads(db, [], db);
    var a := ThenStep(db, [], db, Begin(t));
    var b := ThenStep(db, [] + [Begin(t)], a, LockInvoice(t, e));
    assert [] + [Begin(t)] + [LockInvoice(t, e)] == [Begin(t), LockInvoice(t, e)];
    var c := ThenStep(db, [Begin(t), LockInvoice(t, e)], b, Begin(u));
    after := ThenStep(db, [Begin(t), LockInvoice(t, e)] + [Begin(u)], c, LockInvoice(u, e));
    forall v ensures !HoldsLock(after, v, e.key) {
      assert !HoldsLock(db, v, e.key);
    }
  }

  /** Then the invoice is issued with a charge, and both read the whole charge as outstanding. */
  lemma ThenIssuedAndRead(db: Database, t: nat, u: nat, e: Entry, n: nat) returns (after: Database)
    requires BothBlind(db, t, u, e, n) && t != u && LockFree(db, e.key)
    requires e.key !in db.invoices && Admissible(e) && Outstanding(db.ledger, e.key) == 0
    ensures Leads(db, [IssueInvoice(e.key, [e.(kind := Charge)]), ReadSum(t)] + [ReadSum(u)], after)
    ensures BothSummed(after, t, u, e, n, e.amount) && LockFree(after, e.key)
    ensures after.invoices == db.invoices + {e.key} && after.ledger == db.ledger + [e.(kind := Charge)]
  {
    var charge := e.(kind := Charge);
    OutstandingAppend(db.ledger, charge, e.key);
    hide Outstanding, OnInvoice;
    assert Leads(db, [], db);
    var a := ThenStep(db, [], db, IssueInvoice(e.key, [charge]));
    assert a.ledger + [] == db.ledger + [charge];
    var b := ThenStep(db, [] + [IssueInvoice(e.key, [charge])], a, ReadSum(t));
    assert [] + [IssueInvoice(e.key, [charge])] + [ReadSum(t)] == [IssueInvoice(e.key, [charge]), ReadSum(t)];
    after := ThenStep(db, [IssueInvoice(e.key, [charge]), ReadSum(t)], b, ReadSum(u));
    forall v ensures !HoldsLock(after, v, e.key) {
      assert !HoldsLock(db, v, e.key);
    }
  }

  /** And both credit it. Their foreign-key checks share the invoice's row. */
  lemma ThenBothCommit(db: Database, t: nat, u: nat, e: Entry, n: nat) returns (after: Database)
    requires BothSummed(db, t, u, e, n, e.amount) && t != u && e.key in db.invoices && LockFree(db, e.key)
    ensures Leads(db, [InsertSummed(t), InsertSummed(u)] + [Commit(t)] + [Commit(u)], after)
    ensures after.ledger == db.ledger + [e] + [e]
  {
    hide Outstanding, OnInvoice;
    assert [] + [e] == [e];
    assert Leads(db, [], db);
    var x := ThenStep(db, [], db, InsertSummed(t));
    forall v ensures !HoldsLock(x, v, e.key) {
      assert !HoldsLock(db, v, e.key);
    }
    var y := ThenStep(db, [] + [InsertSummed(t)], x, InsertSummed(u));
    assert [] + [InsertSummed(t)] + [InsertSummed(u)] == [InsertSummed(t), InsertSummed(u)];
    var z := ThenStep(db, [InsertSummed(t), InsertSummed(u)], y, Commit(t));
    after := ThenStep(db, [InsertSummed(t), InsertSummed(u)] + [Commit(t)], z, Commit(u));
  }

  /** The condition is needed for every invoice: wherever a credit or payment may lock before its invoice is visible,
      there are steps after which the invoice is credited twice what was charged to it. */
  lemma UnseenInvoiceOverapplies(db: Database, t: nat, u: nat, e: Entry) returns (steps: seq<Step>, after: Database)
    requires AllInvoicesExist(db) && t !in db.active && u !in db.active && t != u && LockFree(db, e.key)
    requires e.kind != Charge && Admissible(e) && e.key !in db.invoices
    ensures [Begin(t), LockInvoice(t, e)] <= steps && Leads(db, steps, after)
    ensures Outstanding(after.ledger, e.key) == -e.amount < 0
  {
    hide Leads, Enabled, Apply, LockFree;
    NothingOutstanding(db.invoices, db.ledger, e.key);
    var charge := e.(kind := Charge);
    var first := BothLockNothing(db, t, u, e);
    steps := [Begin(t), LockInvoice(t, e)] + [Begin(u)] + [LockInvoice(u, e)];
    var second := ThenIssuedAndRead(first, t, u, e, db.tickets);
    var more := [IssueInvoice(e.key, [charge]), ReadSum(t)] + [ReadSum(u)];
    LeadsOn(db, steps, first, more, second);
    steps := steps + more;
    after := ThenBothCommit(second, t, u, e, db.tickets);
    more := [InsertSummed(t), InsertSummed(u)] + [Commit(t)] + [Commit(u)];
    LeadsOn(db, steps, second, more, after);
    steps := steps + more;
    OutstandingAppend(db.ledger, charge, e.key);
    OutstandingAppend(second.ledger, e, e.key);
    OutstandingAppend(second.ledger + [e], e, e.key);
  }

  // ---------------------------------------------------------------------------------------------
  // Sums over the open transactions
  // ---------------------------------------------------------------------------------------------

  ghost function Total(m: map<nat, int>): int
    decreases |m|
  {
    if m == map[] then 0 else var t :| t in m; m[t] + Total(m - {t})
  }

  lemma {:induction false} TotalOf(m: map<nat, int>, t: nat)
    requires t in m
    ensures Total(m) == m[t] + Total(m - {t})
    decreases |m|
  {
    var u :| u in m && Total(m) == m[u] + Total(m - {u});
    if u != t {
      TotalOf(m - {u}, t);
      TotalOf(m - {t}, u);
      assert (m - {u}) - {t} == (m - {t}) - {u};
    }
  }

  lemma TotalWith(m: map<nat, int>, t: nat, v: int)
    ensures Total(m[t := v]) == v + Total(m - {t})
    ensures Total(m[t := v]) == Total(m) + v - (if t in m then m[t] else 0)
  {
    TotalOf(m[t := v], t);
    assert m[t := v] - {t} == m - {t};
    if t in m { TotalOf(m, t); } else { assert m - {t} == m; }
  }

  lemma {:induction false} TotalNotPositive(m: map<nat, int>)
    requires forall t :: t in m ==> m[t] <= 0
    ensures Total(m) <= 0
    ensures (forall t :: t in m ==> m[t] == 0) ==> Total(m) == 0
    decreases |m|
  {
    if m != map[] {
      var t :| t in m && Total(m) == m[t] + Total(m - {t});
      TotalNotPositive(m - {t});
    }
  }

  // ---------------------------------------------------------------------------------------------
  // Exactly when an invoice is safe
  // ---------------------------------------------------------------------------------------------

  function Negative(n: int): int {
    if n < 0 then n else 0
  }

  /** What the transaction takes from the invoice if it commits, as far as that is decided. A trigger that has summed
      less than its amount will not insert; one that has the lock of its invoice will not sum anything else than now. */
  ghost function Loss(key: Key, ledger: seq<Entry>, x: Transaction): (loss: int)
    ensures loss <= 0
  {
    var own := Outstanding(x.rows, key);
    match x.point
    case Idle => Negative(own)
    case Locked(e, _) =>
      if e.key == key || (e.key in x.locks && e.amount > Outstanding(ledger + x.rows, e.key)) then 0 else Negative(own)
    case Summed(e, _, sum) =>
      if e.amount > sum then 0 else Negative(own - (if e.key == key then e.amount else 0))
  }

  ghost function Losses(key: Key, db: Database): map<nat, int> {
    map t | t in db.active :: Loss(key, db.ledger, db.active[t])
  }

  /** A trigger for the invoice found nothing to lock, and may still insert. */
  ghost predicate IsBlind(key: Key, x: Transaction) {
    && x.point != Idle && x.point.entry.key == key && key !in x.locks
    && (x.point.Summed? ==> x.point.entry.amount <= x.point.outstanding)
  }

  ghost predicate NoneBlind(key: Key, db: Database) {
    forall t :: t in db.active ==> !IsBlind(key, db.active[t])
  }

  /** No trigger is blind for the invoice, and what is outstanding covers all that open transactions have decided to
      take. */
  ghost predicate Settled(key: Key, db: Database) {
    && Outstanding(db.ledger, key) >= 0
    && NoneBlind(key, db)
    && Outstanding(db.ledger, key) + Total(Losses(key, db)) >= 0
  }

  /** Some steps lead on, along which every later lock on the invoice finds it. */
  ghost predicate Reaches(db: Database, key: Key, after: Database) {
    exists steps :: Leads(db, steps, after) && FindsInvoices(db, steps, key)
  }

  /** However the transactions go on, the invoice is not overapplied as long as later locks on it find it. */
  ghost predicate IsSafe(key: Key, db: Database) {
    forall after :: Reaches(db, key, after) ==> Outstanding(after.ledger, key) >= 0
  }

  lemma NothingOn(rows: seq<Entry>, key: Key)
    requires !OnInvoice(rows, key)
    ensures Outstanding(rows, key) == 0
  {
    NoneOnInvoice(rows, key);
  }

  lemma {:induction false} NoneOnInvoice(rows: seq<Entry>, key: Key)
    requires forall i :: 0 <= i < |rows| ==> rows[i].key != key
    ensures Outstanding(rows, key) == 0
  {
    if rows != [] { NoneOnInvoice(rows[..|rows| - 1], key); }
  }

  /** Losses depend on others' entries only for an invoice whose lock is held, and there others have none. */
  lemma SameLoss(key: Key, db: Database, more: seq<Entry>, t: nat)
    requires t in db.active && forall k :: HoldsLock(db, t, k) ==> !OnInvoice(more, k)
    ensures Loss(key, db.ledger + more, db.active[t]) == Loss(key, db.ledger, db.active[t])
  {
    var x := db.active[t];
    if x.point.Locked? && x.point.entry.key in x.locks {
      var k := x.point.entry.key;
      assert HoldsLock(db, t, k);
      NothingOn(more, k);
      OutstandingConcat(db.ledger + more, x.rows, k);
      OutstandingConcat(db.ledger, more, k);
      OutstandingConcat(db.ledger, x.rows, k);
    }
  }

  lemma SameLossAfterCommit(key: Key, db: Database, u: nat, t: nat)
    requires LocksExclude(db) && u in db.active && t in db.active && u != t
    ensures Loss(key, db.ledger + db.active[u].rows, db.active[t]) == Loss(key, db.ledger, db.active[t])
  {
    forall k | HoldsLock(db, t, k) ensures !OnInvoice(db.active[u].rows, k) {
      assert !Shares(db, u, k);
    }
    SameLoss(key, db, db.active[u].rows, t);
  }

  lemma CommitLosses(key: Key, db: Database, u: nat)
    requires LocksExclude(db) && u in db.active
    ensures Losses(key, db.(ledger := db.ledger + db.active[u].rows, active := db.active - {u})) == Losses(key, db) - {u}
  {
    hide LocksExclude, Loss;
    forall t | t in db.active && t != u
      ensures Loss(key, db.ledger + db.active[u].rows, db.active[t]) == Loss(key, db.ledger, db.active[t])
    {
      SameLossAfterCommit(key, db, u, t);
    }
  }

  lemma IssueLosses(key: Key, db: Database, issued: Key, charges: seq<Entry>)
    requires TriggersFit(db) && issued !in db.invoices && AreCharges(charges, issued)
    ensures Losses(key, db.(invoices := db.invoices + {issued}, ledger := db.ledger + charges)) == Losses(key, db)
  {
    hide Loss;
    forall t | t in db.active
      ensures Loss(key, db.ledger + charges, db.active[t]) == Loss(key, db.ledger, db.active[t])
    {
      assert TriggerFits(db.invoices, db.active[t]);
      SameLoss(key, db, charges, t);
    }
  }

  lemma WithLosses(key: Key, db: Database, t: nat, x: Transaction)
    ensures Losses(key, With(db, t, x)) == Losses(key, db)[t := Loss(key, db.ledger, x)]
  {
    hide Loss;
  }

  lemma WithoutLosses(key: Key, db: Database, t: nat)
    ensures Losses(key, db.(active := db.active - {t})) == Losses(key, db) - {t}
  {
    hide Loss;
  }

  lemma LossesNotPositive(key: Key, db: Database)
    ensures Total(Losses(key, db)) <= 0
    ensures forall t :: t in db.active ==> Total(Losses(key, db)) <= Losses(key, db)[t] <= 0
  {
    hide Loss;
    TotalNotPositive(Losses(key, db));
    forall t | t in db.active ensures Total(Losses(key, db)) <= Losses(key, db)[t] {
      TotalOf(Losses(key, db), t);
      TotalNotPositive(Losses(key, db) - {t});
    }
  }

  /** A step that changes one transaction and makes it take no more. */
  lemma SettledWith(key: Key, db: Database, t: nat, x: Transaction)
    requires Settled(key, db) && !IsBlind(key, x)
    requires Loss(key, db.ledger, x) >= if t in db.active then Loss(key, db.ledger, db.active[t]) else 0
    ensures Settled(key, With(db, t, x))
  {
    hide Loss, IsBlind;
    WithLosses(key, db, t, x);
    TotalWith(Losses(key, db), t, Loss(key, db.ledger, x));
    assert t in db.active ==> Losses(key, db)[t] == Loss(key, db.ledger, db.active[t]);
  }

  lemma SettledWithout(key: Key, db: Database, t: nat)
    requires Settled(key, db) && t in db.active
    ensures Settled(key, db.(active := db.active - {t}))
  {
    hide Loss, IsBlind;
    WithoutLosses(key, db, t);
    TotalOf(Losses(key, db), t);
    LossesNotPositive(key, db);
  }

  lemma SettledIssue(key: Key, db: Database, issued: Key, charges: seq<Entry>)
    requires Settled(key, db) && TriggersFit(db) && issued !in db.invoices && AreCharges(charges, issued)
    ensures Settled(key, db.(invoices := db.invoices + {issued}, ledger := db.ledger + charges))
  {
    IssueLosses(key, db, issued, charges);
    OutstandingConcat(db.ledger, charges, key);
    ChargesOnly(charges, key);
    hide Losses, IsBlind, Outstanding;
  }

  lemma SettledCommit(key: Key, db: Database, u: nat)
    requires Settled(key, db) && LocksExclude(db) && u in db.active && db.active[u].point == Idle
    ensures Settled(key, db.(ledger := db.ledger + db.active[u].rows, active := db.active - {u}))
  {
    CommitLosses(key, db, u);
    TotalOf(Losses(key, db), u);
    LossesNotPositive(key, db);
    OutstandingConcat(db.ledger, db.active[u].rows, key);
    assert Losses(key, db)[u] == Negative(Outstanding(db.active[u].rows, key));
    hide Loss, IsBlind, Losses, LocksExclude;
  }

  /** Who has the lock sums exactly what is outstanding, as nobody else has anything open on the invoice. */
  lemma SettledSum(key: Key, db: Database, t: nat)
    requires Settled(key, db) && Regular(db) && t in db.active && db.active[t].point.Locked?
    ensures Settled(key, Apply(db, ReadSum(t)))
  {
    var x := db.active[t];
    var e := x.point.entry;
    var after := x.(point := Summed(e, x.point.ticket, Outstanding(db.ledger + x.rows, e.key)));
    assert !IsBlind(key, x);
    if e.key == key {
      OutstandingConcat(db.ledger, x.rows, key);
      AloneWithLock(key, db, t, after);
      hide Losses, Regular, IsBlind;
    } else {
      SettledWith(key, db, t, after);
    }
  }

  lemma AloneWithLock(key: Key, db: Database, t: nat, x: Transaction)
    requires Settled(key, db) && Regular(db) && HoldsLock(db, t, key) && key in x.locks
    ensures NoneBlind(key, With(db, t, x))
    ensures Total(Losses(key, With(db, t, x))) == Loss(key, db.ledger, x)
  {
    WithLosses(key, db, t, x);
    TotalWith(Losses(key, db), t, Loss(key, db.ledger, x));
    forall u | u in Losses(key, db) - {t} ensures Losses(key, db)[u] == 0 {
      assert !Shares(db, u, key) && !HoldsLock(db, u, key) && !IsBlind(key, db.active[u]);
      NothingOn(db.active[u].rows, key);
    }
    TotalNotPositive(Losses(key, db) - {t});
  }

  lemma SettledInsert(key: Key, db: Database, t: nat)
    requires Settled(key, db) && Regular(db) && Enabled(db, InsertSummed(t))
    ensures Settled(key, Apply(db, InsertSummed(t)))
  {
    var x := db.active[t];
    assert TriggerFits(db.invoices, x) && !IsBlind(key, x);
    OutstandingAppend(x.rows, x.point.entry, key);
    SettledWith(key, db, t, x.(rows := x.rows + [x.point.entry], point := Idle));
  }

  lemma SettledLock(key: Key, db: Database, t: nat, e: Entry)
    requires Settled(key, db) && Enabled(db, LockInvoice(t, e)) && (e.key == key ==> key in db.invoices)
    ensures Settled(key, Apply(db, LockInvoice(t, e)))
  {
    var x := db.active[t].(locks := db.active[t].locks + ({e.key} * db.invoices), point := Locked(e, db.tickets));
    SettledWith(key, db, t, x);
    hide Loss, IsBlind, MayLock, Outstanding;
    assert Losses(key, With(db, t, x).(tickets := db.tickets + 1)) == Losses(key, With(db, t, x));
  }

  lemma SettledRead(key: Key, db: Database, t: nat, other: Key)
    requires Settled(key, db) && Enabled(db, ReadForUpdate(t, other))
    ensures Settled(key, Apply(db, ReadForUpdate(t, other)))
  {
    SettledWith(key, db, t, db.active[t].(locks := db.active[t].locks + {other}));
  }

  lemma SettledCharge(key: Key, db: Database, t: nat, e: Entry)
    requires Settled(key, db) && Enabled(db, InsertCharge(t, e))
    ensures Settled(key, Apply(db, InsertCharge(t, e)))
  {
    OutstandingAppend(db.active[t].rows, e, key);
    SettledWith(key, db, t, db.active[t].(rows := db.active[t].rows + [e]));
  }

  lemma SettledKept(key: Key, db: Database, step: Step)
    requires Regular(db) && Settled(key, db) && Enabled(db, step) && FindsInvoice(db, step, key)
    ensures Settled(key, Apply(db, step))
  {
    match step {
      case Begin(t) =>
        hide Losses;
        SettledWith(key, db, t, Transaction([], {}, Idle));
      case IssueInvoice(issued, charges) => SettledIssue(key, db, issued, charges);
      case ReadForUpdate(t, other) => SettledRead(key, db, t, other);
      case InsertCharge(t, e) => SettledCharge(key, db, t, e);
      case LockInvoice(t, e) => SettledLock(key, db, t, e);
      case ReadSum(t) => SettledSum(key, db, t);
      case InsertSummed(t) => SettledInsert(key, db, t);
      case RaiseExceeds(t) => SettledWithout(key, db, t);
      case Commit(t) => SettledCommit(key, db, t);
      case Abort(t) => SettledWithout(key, db, t);
    }
  }

  lemma {:induction false} SettledAfter(key: Key, db: Database, steps: seq<Step>, after: Database)
    requires Regular(db) && Settled(key, db) && Leads(db, steps, after) && FindsInvoices(db, steps, key)
    ensures Settled(key, after)
    decreases |steps|
  {
    hide Enabled, Apply, Settled, Regular, FindsInvoice;
    if steps != [] {
      RegularKept(db, steps[0]);
      SettledKept(key, db, steps[0]);
      SettledAfter(key, Apply(db, steps[0]), steps[1..], after);
    }
  }

  // ---------------------------------------------------------------------------------------------
  // Where it is not settled, it can be overapplied
  // ---------------------------------------------------------------------------------------------

  lemma {:induction false} FindsOn(db: Database, steps: seq<Step>, middle: Database, more: seq<Step>, key: Key)
    requires Leads(db, steps, middle) && FindsInvoices(db, steps, key) && FindsInvoices(middle, more, key)
    ensures FindsInvoices(db, steps + more, key)
    decreases |steps|
  {
    hide Enabled, Apply, FindsInvoice;
    if steps == [] {
      assert steps + more == more;
    } else {
      FindsOn(Apply(db, steps[0]), steps[1..], middle, more, key);
      assert (steps + more)[1..] == steps[1..] + more;
    }
  }

  lemma ReachesFurther(db: Database, key: Key, middle: Database, after: Database)
    requires Reaches(db, key, middle) && Reaches(middle, key, after)
    ensures Reaches(db, key, after)
  {
    hide Leads, FindsInvoices;
    var steps :| Leads(db, steps, middle) && FindsInvoices(db, steps, key);
    var more :| Leads(middle, more, after) && FindsInvoices(middle, more, key);
    LeadsOn(db, steps, middle, more, after);
    FindsOn(db, steps, middle, more, key);
  }

  /** The next state, one step further on. */
  lemma GoOn(db: Database, key: Key, middle: Database, step: Step) returns (after: Database)
    requires Reaches(db, key, middle) && Regular(middle) && Enabled(middle, step) && FindsInvoice(middle, step, key)
    ensures after == Apply(middle, step) && Reaches(db, key, after) && Regular(after)
  {
    after := Apply(middle, step);
    hide Enabled, Apply, FindsInvoice, Regular;
    RegularKept(middle, step);
    assert Leads(after, [step][1..], after) && FindsInvoices(after, [step][1..], key);
    assert Leads(middle, [step], after) && FindsInvoices(middle, [step], key);
    ReachesFurther(db, key, middle, after);
  }

  lemma ReachesItself(db: Database, key: Key)
    ensures Reaches(db, key, db)
  {
    assert Leads(db, [], db) && FindsInvoices(db, [], key);
  }

  lemma Fresh(active: map<nat, Transaction>, taken: set<nat>) returns (n: nat)
    ensures n !in active && n !in taken
  {
    var all := active.Keys + taken;
    n := Above(all);
  }

  /** Anyone may charge the invoice unless it is locked, and issue it with the charge where it is missing. */
  lemma ChargeInvoice(db: Database, key: Key, charge: Entry) returns (after: Database)
    requires Regular(db) && charge.kind == Charge && Admissible(charge) && LockFree(db, charge.key)
    ensures Reaches(db, key, after) && Regular(after) && charge.key in after.invoices
    ensures after.active == db.active && after.ledger == db.ledger + [charge]
  {
    ReachesItself(db, key);
    assert [] + [charge] == [charge];
    hide Outstanding, Regular, Reaches, OnInvoice;
    if charge.key !in db.invoices {
      after := GoOn(db, key, db, IssueInvoice(charge.key, [charge]));
    } else {
      var c := Fresh(db.active, {});
      var begun := GoOn(db, key, db, Begin(c));
      forall u | u != c ensures !HoldsLock(begun, u, charge.key) {
        assert !HoldsLock(db, u, charge.key);
      }
      var charged := GoOn(db, key, begun, InsertCharge(c, charge));
      after := GoOn(db, key, charged, Commit(c));
      assert after.active == db.active;
    }
  }

  /** Anyone may issue a missing invoice, even without a charge. */
  lemma IssueMissing(db: Database, key: Key, issued: Key) returns (after: Database)
    requires Regular(db)
    ensures Reaches(db, key, after) && Regular(after) && issued in after.invoices
    ensures after.active == db.active && after.ledger == db.ledger
  {
    ReachesItself(db, key);
    after := db;
    assert db.ledger + [] == db.ledger;
    hide Outstanding, Regular, Reaches;
    if issued !in db.invoices { after := GoOn(db, key, db, IssueInvoice(issued, [])); }
  }

  /** All other transactions may give up. */
  lemma {:induction false} AbortOthers(db: Database, key: Key, t: nat) returns (after: Database)
    requires Regular(db) && t in db.active
    ensures Reaches(db, key, after) && Regular(after)
    ensures after.active == map[t := db.active[t]] && after.ledger == db.ledger && after.invoices == db.invoices
    decreases |db.active|
  {
    ReachesItself(db, key);
    hide Outstanding, Regular, Reaches;
    after := db;
    if u :| u in db.active && u != t {
      var fewer := GoOn(db, key, db, Abort(u));
      assert fewer.active.Keys == db.active.Keys - {u};
      assert |fewer.active| == |fewer.active.Keys| && |db.active| == |db.active.Keys|;
      after := AbortOthers(fewer, key, t);
      ReachesFurther(db, key, fewer, after);
    }
  }

  // A blind trigger.

  /** It is still to sum: once its invoice is there and charged, it sums enough. */
  lemma SumsEnough(db: Database, key: Key, t: nat) returns (after: Database)
    requires Regular(db) && db.active.Keys == {t} && IsBlind(key, db.active[t])
    ensures Reaches(db, key, after) && Regular(after) && after.active.Keys == {t}
    ensures IsBlind(key, after.active[t]) && after.active[t].point.Summed?
  {
    var x, e := db.active[t], db.active[t].point.entry;
    ReachesItself(db, key);
    assert TriggerFits(db.invoices, x);
    after := db;
    if x.point.Locked? {
      NoneOnInvoice(x.rows, key);
      var had := Outstanding(db.ledger, key);
      var charge := Entry(key, Charge, if had >= e.amount then 1 else e.amount - had);
      OutstandingAppend(db.ledger, charge, key);
      OutstandingConcat(db.ledger + [charge], x.rows, key);
      hide Outstanding, Regular, Reaches;
      var charged := ChargeInvoice(db, key, charge);
      after := GoOn(db, key, charged, ReadSum(t));
    }
  }

  /** A new transaction takes the lock for a credit. */
  lemma TakeLock(db: Database, t: nat, u: nat, e: Entry) returns (after: Database)
    requires Regular(db) && db.active.Keys == {t} && IsBlind(e.key, db.active[t]) && u !in db.active
    requires e.kind == Credit && Admissible(e) && e.key in db.invoices
    ensures Reaches(db, e.key, after) && Regular(after)
    ensures after.invoices == db.invoices && after.ledger == db.ledger
    ensures after.active == db.active[u := Transaction([], {e.key}, Locked(e, db.tickets))]
  {
    assert TriggerFits(db.invoices, db.active[t]);
    ReachesItself(db, e.key);
    hide Outstanding, Regular, Reaches;
    var begun := GoOn(db, e.key, db, Begin(u));
    forall v | v != u ensures !HoldsLock(begun, v, e.key) && !Shares(begun, v, e.key) {
      assert v in begun.active ==> v == t;
    }
    after := GoOn(db, e.key, begun, LockInvoice(u, e));
    assert {} + ({e.key} * db.invoices) == {e.key};
    assert after.active == db.active[u := Transaction([], {e.key}, Locked(e, db.tickets))];
  }

  /** Its trigger sums, it inserts and commits. */
  lemma CreditLocked(db: Database, t: nat, u: nat, e: Entry, n: nat) returns (after: Database)
    requires Regular(db) && db.active.Keys == {t, u} && t != u && !HoldsLock(db, t, e.key) && e.key in db.invoices
    requires db.active[u] == Transaction([], {e.key}, Locked(e, n)) && e.amount <= Outstanding(db.ledger, e.key)
    ensures Reaches(db, e.key, after) && Regular(after)
    ensures after.invoices == db.invoices && after.ledger == db.ledger + [e]
    ensures after.active == db.active - {u}
  {
    ReachesItself(db, e.key);
    assert db.ledger + [] == db.ledger && [] + [e] == [e];
    hide Outstanding, Regular, Reaches, OnInvoice;
    var summed := GoOn(db, e.key, db, ReadSum(u));
    forall v | v != u ensures !HoldsLock(summed, v, e.key) {
      assert v in summed.active ==> v == t;
    }
    var inserted := GoOn(db, e.key, summed, InsertSummed(u));
    after := GoOn(db, e.key, inserted, Commit(u));
    assert after.active == db.active - {u};
  }

  /** So nothing may be left for the blind trigger. */
  lemma Drain(db: Database, key: Key, t: nat) returns (after: Database)
    requires Regular(db) && db.active.Keys == {t} && IsBlind(key, db.active[t]) && Outstanding(db.ledger, key) >= 0
    ensures Reaches(db, key, after) && Regular(after) && after.active == db.active
    ensures Outstanding(after.ledger, key) == 0
  {
    after := db;
    ReachesItself(db, key);
    if Outstanding(db.ledger, key) > 0 {
      var e := Entry(key, Credit, Outstanding(db.ledger, key));
      if key !in db.invoices { NothingOutstanding(db.invoices, db.ledger, key); }
      OutstandingAppend(db.ledger, e, key);
      var u := Fresh(db.active, {});
      hide Outstanding, Regular, Reaches;
      var locked := TakeLock(db, t, u, e);
      after := CreditLocked(locked, t, u, e, db.tickets);
      ReachesFurther(db, key, locked, after);
      assert after.active == db.active;
    }
  }

  lemma InsertsBlind(db: Database, key: Key, t: nat) returns (after: Database)
    requires Regular(db) && db.active.Keys == {t} && IsBlind(key, db.active[t]) && db.active[t].point.Summed?
    requires Outstanding(db.ledger, key) == 0 && key in db.invoices
    ensures Reaches(db, key, after) && Outstanding(after.ledger, key) < 0
  {
    var x, e := db.active[t], db.active[t].point.entry;
    assert TriggerFits(db.invoices, x);
    ReachesItself(db, key);
    NoneOnInvoice(x.rows, key);
    OutstandingAppend(x.rows, e, key);
    OutstandingConcat(db.ledger, x.rows + [e], key);
    hide Outstanding, Regular, Reaches, OnInvoice;
    forall v | v != t ensures !HoldsLock(db, v, key) {
      assert v !in db.active;
    }
    var inserted := GoOn(db, key, db, InsertSummed(t));
    after := GoOn(db, key, inserted, Commit(t));
  }

  lemma BlindOverapplies(db: Database, key: Key, t: nat) returns (after: Database)
    requires Regular(db) && t in db.active && IsBlind(key, db.active[t])
    ensures Reaches(db, key, after) && Outstanding(after.ledger, key) < 0
  {
    hide Regular, Reaches, Outstanding, IsBlind;
    var alone := AbortOthers(db, key, t);
    var summed := SumsEnough(alone, key, t);
    ReachesFurther(db, key, alone, summed);
    after := summed;
    if Outstanding(summed.ledger, key) >= 0 {
      var empty := Drain(summed, key, t);
      ReachesFurther(db, key, summed, empty);
      var issued := IssueMissing(empty, key, key);
      ReachesFurther(db, key, empty, issued);
      after := InsertsBlind(issued, key, t);
      ReachesFurther(db, key, issued, after);
    }
  }

  // Too little outstanding for what is decided.

  ghost predicate Short(key: Key, db: Database) {
    NoneBlind(key, db) && Outstanding(db.ledger, key) + Total(Losses(key, db)) < 0
  }

  lemma AbortShort(key: Key, db: Database, t: nat)
    requires Short(key, db) && t in db.active && Loss(key, db.ledger, db.active[t]) == 0
    ensures Short(key, db.(active := db.active - {t}))
  {
    hide Loss, IsBlind, Outstanding;
    WithoutLosses(key, db, t);
    TotalOf(Losses(key, db), t);
  }

  lemma CommitShort(key: Key, db: Database, t: nat)
    requires Short(key, db) && LocksExclude(db) && t in db.active && db.active[t].point == Idle
    requires Loss(key, db.ledger, db.active[t]) < 0
    ensures Short(key, db.(ledger := db.ledger + db.active[t].rows, active := db.active - {t}))
  {
    CommitLosses(key, db, t);
    TotalOf(Losses(key, db), t);
    OutstandingConcat(db.ledger, db.active[t].rows, key);
    assert Losses(key, db)[t] == Outstanding(db.active[t].rows, key);
    hide Loss, IsBlind, Losses, LocksExclude, Outstanding;
  }

  /** A transaction that is between its statements commits if it takes something, and otherwise gives up. */
  lemma FinishIdle(db: Database, key: Key, t: nat) returns (after: Database)
    requires Regular(db) && Short(key, db) && t in db.active
    requires db.active[t].point == Idle || Loss(key, db.ledger, db.active[t]) == 0
    ensures Reaches(db, key, after) && Regular(after) && Short(key, after) && after.active == db.active - {t}
  {
    ReachesItself(db, key);
    assert LocksExclude(db);
    hide Loss, Regular, Reaches, Short, LocksExclude, Outstanding, OnInvoice, MayLock, MayInsert, AreCharges;
    if Loss(key, db.ledger, db.active[t]) == 0 {
      AbortShort(key, db, t);
      after := GoOn(db, key, db, Abort(t));
    } else {
      CommitShort(key, db, t);
      after := GoOn(db, key, db, Commit(t));
    }
  }

  /** No other transaction has the lock of the invoice that the trigger runs for. */
  ghost predicate Unblocked(db: Database, t: nat) {
    t in db.active && db.active[t].point != Idle
    && forall u :: u != t ==> !HoldsLock(db, u, db.active[t].point.entry.key)
  }

  lemma StaysUnblocked(db: Database, after: Database, t: nat)
    requires Unblocked(db, t) && after.active.Keys == db.active.Keys
    requires forall u :: u in db.active ==> after.active[u].locks == db.active[u].locks
    requires after.active[t].point != Idle && after.active[t].point.entry == db.active[t].point.entry
    ensures Unblocked(after, t)
  {
    forall u | u != t ensures !HoldsLock(after, u, db.active[t].point.entry.key) {
      assert !HoldsLock(db, u, db.active[t].point.entry.key);
    }
  }

  /** A trigger that is still to sum sums enough, if need be after a charge on its invoice. */
  lemma FinishSum(db: Database, key: Key, t: nat) returns (after: Database)
    requires Regular(db) && Short(key, db) && Unblocked(db, t) && db.active[t].point.Locked?
    requires Loss(key, db.ledger, db.active[t]) < 0
    ensures Reaches(db, key, after) && Regular(after) && Short(key, after) && Unblocked(after, t)
    ensures after.active.Keys == db.active.Keys && after.active[t].point.Summed?
    ensures Loss(key, after.ledger, after.active[t]) < 0
  {
    ReachesItself(db, key);
    var x, e := db.active[t], db.active[t].point.entry;
    var charged := db;
    if e.key !in x.locks {
      charged := ChargeFor(db, key, t);
    }
    after := SumEnough(charged, key, t);
    hide *;
    ReachesFurther(db, key, charged, after);
  }

  lemma ChargeFor(db: Database, key: Key, t: nat) returns (after: Database)
    requires Regular(db) && Short(key, db) && Unblocked(db, t) && db.active[t].point.Locked?
    requires db.active[t].point.entry.key !in db.active[t].locks && db.active[t].point.entry.key != key
    ensures Reaches(db, key, after) && Regular(after) && Short(key, after) && Unblocked(after, t)
    ensures after.active == db.active
    ensures db.active[t].point.entry.amount <= Outstanding(after.ledger + db.active[t].rows, db.active[t].point.entry.key)
  {
    var x, e := db.active[t], db.active[t].point.entry;
    var had := Outstanding(db.ledger + x.rows, e.key);
    var charge := Entry(e.key, Charge, if had >= e.amount then 1 else e.amount - had);
    OutstandingAppend(db.ledger, charge, key);
    OutstandingAppend(db.ledger, charge, e.key);
    OutstandingConcat(db.ledger, x.rows, e.key);
    OutstandingConcat(db.ledger + [charge], x.rows, e.key);
    ChargeLosses(key, db, charge);
    hide Outstanding, Regular, Reaches, Losses, NoneBlind, OnInvoice;
    after := ChargeInvoice(db, key, charge);
    StaysUnblocked(db, after, t);
  }

  lemma ChargeLosses(key: Key, db: Database, charge: Entry)
    requires LockFree(db, charge.key)
    ensures forall after: Database :: after.active == db.active && after.ledger == db.ledger + [charge] ==>
      Losses(key, after) == Losses(key, db)
  {
    hide Loss;
    forall u | u in db.active
      ensures Loss(key, db.ledger + [charge], db.active[u]) == Loss(key, db.ledger, db.active[u])
    {
      SameLoss(key, db, [charge], u);
    }
  }

  lemma SumEnough(db: Database, key: Key, t: nat) returns (after: Database)
    requires Regular(db) && Short(key, db) && Unblocked(db, t) && db.active[t].point.Locked?
    requires db.active[t].point.entry.key != key
    requires Loss(key, db.ledger, db.active[t]) < 0
    requires db.active[t].point.entry.amount <= Outstanding(db.ledger + db.active[t].rows, db.active[t].point.entry.key)
    ensures Reaches(db, key, after) && Regular(after) && Short(key, after) && Unblocked(after, t)
    ensures after.active.Keys == db.active.Keys && after.active[t].point.Summed?
    ensures Loss(key, after.ledger, after.active[t]) < 0
  {
    ReachesItself(db, key);
    SumShort(db, key, t);
    hide Outstanding, Regular, Reaches, Loss, Short, HoldsLock, Unblocked, OnInvoice, MayLock, MayInsert, AreCharges;
    after := GoOn(db, key, db, ReadSum(t));
    StaysUnblocked(db, after, t);
  }

  lemma SumShort(db: Database, key: Key, t: nat)
    requires Short(key, db) && t in db.active && db.active[t].point.Locked? && db.active[t].point.entry.key != key
    requires Loss(key, db.ledger, db.active[t]) < 0
    requires db.active[t].point.entry.amount <= Outstanding(db.ledger + db.active[t].rows, db.active[t].point.entry.key)
    ensures Short(key, Apply(db, ReadSum(t)))
    ensures Loss(key, db.ledger, Apply(db, ReadSum(t)).active[t]) < 0
  {
    var x, e := db.active[t], db.active[t].point.entry;
    var y := x.(point := Summed(e, x.point.ticket, Outstanding(db.ledger + x.rows, e.key)));
    assert Loss(key, db.ledger, y) == Loss(key, db.ledger, x);
    SameShort(key, db, t, y);
    hide Outstanding, Losses, NoneBlind, Loss, Short;
  }

  lemma SameShort(key: Key, db: Database, t: nat, x: Transaction)
    requires Short(key, db) && t in db.active && Loss(key, db.ledger, x) == Loss(key, db.ledger, db.active[t])
    requires !IsBlind(key, x)
    ensures Short(key, With(db, t, x))
  {
    WithLosses(key, db, t, x);
    assert Losses(key, db)[t := Loss(key, db.ledger, x)] == Losses(key, db);
  }

  /** A trigger that has summed enough inserts, as soon as its invoice is there. */
  lemma FinishInsert(db: Database, key: Key, t: nat) returns (after: Database)
    requires Regular(db) && Short(key, db) && Unblocked(db, t) && db.active[t].point.Summed?
    requires Loss(key, db.ledger, db.active[t]) < 0
    ensures Reaches(db, key, after) && Regular(after) && Short(key, after)
    ensures after.active.Keys == db.active.Keys && after.active[t].point == Idle
  {
    var x, e := db.active[t], db.active[t].point.entry;
    hide Outstanding, Regular, Reaches, Loss;
    var issued := IssueMissing(db, key, e.key);
    assert Losses(key, issued) == Losses(key, db);
    StaysUnblocked(db, issued, t);
    after := InsertEnough(issued, key, t);
    ReachesFurther(db, key, issued, after);
  }

  lemma InsertEnough(db: Database, key: Key, t: nat) returns (after: Database)
    requires Regular(db) && Short(key, db) && Unblocked(db, t) && db.active[t].point.Summed?
    requires Loss(key, db.ledger, db.active[t]) < 0 && db.active[t].point.entry.key in db.invoices
    ensures Reaches(db, key, after) && Regular(after) && Short(key, after)
    ensures after.active.Keys == db.active.Keys && after.active[t].point == Idle
  {
    ReachesItself(db, key);
    var x, e := db.active[t], db.active[t].point.entry;
    assert TriggerFits(db.invoices, x);
    OutstandingAppend(x.rows, e, key);
    var y := x.(rows := x.rows + [e], point := Idle);
    assert Loss(key, db.ledger, y) == Loss(key, db.ledger, x);
    SameShort(key, db, t, y);
    hide Outstanding, Regular, Reaches, Losses, NoneBlind, Loss, Short;
    after := GoOn(db, key, db, InsertSummed(t));
  }

  /** The trigger that began last waits for nobody, once nobody is between statements. */
  lemma {:induction false} LastTrigger(db: Database, open: set<nat>) returns (t: nat)
    requires open != {} && forall u :: u in open ==> u in db.active && db.active[u].point != Idle
    ensures t in open && forall u :: u in open ==> db.active[u].point.ticket <= db.active[t].point.ticket
    decreases |open|
  {
    t :| t in open;
    if open != {t} {
      var u := LastTrigger(db, open - {t});
      if db.active[t].point.ticket < db.active[u].point.ticket { t := u; }
    }
  }

  lemma LastIsUnblocked(db: Database, t: nat)
    requires Regular(db) && t in db.active
    requires forall u :: u in db.active ==> db.active[u].point != Idle
    requires forall u :: u in db.active ==> db.active[u].point.ticket <= db.active[t].point.ticket
    ensures Unblocked(db, t)
  {
    var key := db.active[t].point.entry.key;
    forall u | u != t ensures !HoldsLock(db, u, key) {
      if HoldsLock(db, u, key) {
        assert !HoldsLock(db, t, key);
        assert WaitsFor(db, t, u);
      }
    }
  }

  /** One transaction after the other may finish and take what it has decided to take. */
  lemma {:induction false} ShortOverapplies(db: Database, key: Key) returns (after: Database)
    requires Regular(db) && Short(key, db)
    ensures Reaches(db, key, after) && Outstanding(after.ledger, key) < 0
    decreases |db.active|
  {
    ReachesItself(db, key);
    after := db;
    hide Outstanding, Regular, Reaches, Loss, NoneBlind;
    if db.active != map[] {
      var t, middle := FinishOne(db, key);
      assert middle.active.Keys == db.active.Keys - {t};
      assert |middle.active| == |middle.active.Keys| && |db.active| == |db.active.Keys|;
      after := ShortOverapplies(middle, key);
      ReachesFurther(db, key, middle, after);
    } else {
      TotalNotPositive(Losses(key, db));
    }
  }

  lemma FinishOne(db: Database, key: Key) returns (t: nat, after: Database)
    requires Regular(db) && Short(key, db) && db.active != map[]
    ensures Reaches(db, key, after) && Regular(after) && Short(key, after)
    ensures t in db.active && after.active.Keys == db.active.Keys - {t}
  {
    hide Outstanding, Regular, Reaches, Loss, Short, HoldsLock;
    if u :| u in db.active && (db.active[u].point == Idle || Loss(key, db.ledger, db.active[u]) == 0) {
      t := u;
      after := FinishIdle(db, key, t);
    } else {
      t := LastTrigger(db, db.active.Keys);
      LastIsUnblocked(db, t);
      var summed := db;
      ReachesItself(db, key);
      if db.active[t].point.Locked? { summed := FinishSum(db, key, t); }
      var idle := FinishInsert(summed, key, t);
      ReachesFurther(db, key, summed, idle);
      after := FinishIdle(idle, key, t);
      ReachesFurther(db, key, idle, after);
    }
  }

  lemma UnsettledOverapplies(key: Key, db: Database) returns (after: Database)
    requires Regular(db) && !Settled(key, db)
    ensures Reaches(db, key, after) && Outstanding(after.ledger, key) < 0
  {
    ReachesItself(db, key);
    after := db;
    hide Regular, Reaches, Outstanding, IsBlind;
    if t :| t in db.active && IsBlind(key, db.active[t]) {
      after := BlindOverapplies(db, key, t);
    } else if Outstanding(db.ledger, key) >= 0 {
      after := ShortOverapplies(db, key);
    }
  }

  /** Exactly when: in every reachable state, an invoice stays safe however the transactions go on, if and only if it is
      settled. */
  lemma SafeExactlyWhenSettled(invoices: set<Key>, steps: seq<Step>, db: Database, key: Key)
    requires Leads(Start(invoices), steps, db)
    ensures IsSafe(key, db) <==> Settled(key, db)
  {
    RegularAfter(Start(invoices), steps, db);
    hide Regular, Leads, FindsInvoices;
    if Settled(key, db) {
      forall after | Reaches(db, key, after) ensures Outstanding(after.ledger, key) >= 0 {
        var more :| Leads(db, more, after) && FindsInvoices(db, more, key);
        SettledAfter(key, db, more, after);
      }
    } else {
      var after := UnsettledOverapplies(key, db);
    }
  }

  /** And for the locking statement: where an invoice is safe, it is still safe after a credit or payment has run its
      locking statement if and only if the invoice was visible then. */
  lemma LockSafeExactlyWhenVisible(invoices: set<Key>, steps: seq<Step>, db: Database, t: nat, e: Entry)
    requires Leads(Start(invoices), steps, db) && IsSafe(e.key, db) && Enabled(db, LockInvoice(t, e))
    ensures IsSafe(e.key, Apply(db, LockInvoice(t, e))) <==> e.key in db.invoices
  {
    var step := LockInvoice(t, e);
    var after := Apply(db, step);
    assert Leads(after, [step][1..], after);
    RegularAfter(Start(invoices), steps, db);
    assert TriggerFits(db.invoices, db.active[t]);
    LeadsOn(Start(invoices), steps, db, [step], after);
    SafeExactlyWhenSettled(invoices, steps, db, e.key);
    SafeExactlyWhenSettled(invoices, steps + [step], after, e.key);
    LockSettles(db, t, e);
  }

  lemma LockSettles(db: Database, t: nat, e: Entry)
    requires Regular(db) && Settled(e.key, db) && Enabled(db, LockInvoice(t, e))
    ensures Settled(e.key, Apply(db, LockInvoice(t, e))) <==> e.key in db.invoices
  {
    var after := Apply(db, LockInvoice(t, e));
    assert TriggerFits(db.invoices, db.active[t]);
    if e.key in db.invoices {
      SettledKept(e.key, db, LockInvoice(t, e));
    } else {
      assert IsBlind(e.key, after.active[t]);
    }
  }
}
