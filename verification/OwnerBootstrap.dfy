/** Provisioning the first owner: create the identity, initialise its membership, send one recovery email; over any
    number of runs, each of which may stop at any call. */
module OwnerBootstrap {
  import opened Text
  import opened JsonValues

  const RECOVERY_SENT := "contentengine_owner_recovery_sent"
  const CHANGE_REQUIRED := "contentengine_password_change_required"
  const CHANGE_COMPLETED := "contentengine_password_change_completed"
  const BOOTSTRAP_OWNER := "contentengine_bootstrap_owner"

  datatype Owner = NoUser | User(confirmed: bool, signedIn: bool, ownerActive: bool, metadata: Document)

  predicate Marked(o: Owner) {
    o.User? && Has(o.metadata, RECOVERY_SENT, Bool(true))
  }

  /** Nothing is left to do. */
  predicate Settled(o: Owner) {
    o.User? && o.confirmed && o.ownerActive && (o.signedIn || Marked(o))
  }

  /** What others may do to the identity: confirm it, sign in, activate it and change its metadata; but nobody else
      sets or removes the recovery marker, and nothing is revoked. */
  predicate Lawful(before: Owner, after: Owner) {
    && Marked(before) == Marked(after)
    && (before.User? ==>
          && after.User?
          && (before.confirmed ==> after.confirmed)
          && (before.signedIn ==> after.signedIn)
          && (before.ownerActive ==> after.ownerActive))
  }

  /** A request is lost, takes effect without an answer, or takes effect and is answered. */
  datatype Outcome = Lost | Unanswered | Answered

  datatype Turn = Turn(drift: Owner -> Owner, outcome: Outcome)

  ghost predicate LawfulTurns(turns: nat -> Turn) {
    forall i: nat, o :: Lawful(o, turns(i).drift(o))
  }

  /** Nobody else changes the identity, and every call is answered. */
  ghost predicate Steady(turns: nat -> Turn) {
    forall i: nat :: turns(i).outcome == Answered && forall o :: turns(i).drift(o) == o
  }

  lemma SteadyIsLawful(turns: nat -> Turn)
    ensures Steady(turns) ==> LawfulTurns(turns)
  {}

  /** Metadata as Auth keeps it after an update: some versions merge the keys, some replace them all. */
  function Updated(stored: Document, sent: Document, merges: bool): Document {
    if merges then stored + sent else sent
  }

  class Supabase {
    const turns: nat -> Turn
    const merges: bool
    var clock: nat
    var owner: Owner
    var writes: nat
    var emails: nat
    /** The identity as it was whenever a membership was initialised for it. */
    var initialised: seq<Owner>
    /** The identity as it was whenever a recovery email was sent to it. */
    var emailed: seq<Owner>

    constructor (turns: nat -> Turn, merges: bool, owner: Owner)
      ensures this.turns == turns && this.merges == merges && this.owner == owner
      ensures clock == 0 && writes == 0 && emails == 0 && initialised == [] && emailed == []
    {
      this.turns, this.merges, this.owner := turns, merges, owner;
      clock, writes, emails, initialised, emailed := 0, 0, 0, [], [];
    }

    method ReadOwner() returns (r: Result<Owner, ()>)
      modifies `clock, `owner
      ensures clock == old(clock) + 1 && owner == turns(old(clock)).drift(old(owner))
      ensures r == if turns(old(clock)).outcome == Answered then Ok(owner) else Err(())
    {
      var turn := turns(clock);
      owner, clock := turn.drift(owner), clock + 1;
      return if turn.outcome == Answered then Ok(owner) else Err(());
    }

    method ServerKey() returns (ok: bool)
      modifies `clock, `owner
      ensures clock == old(clock) + 1 && owner == turns(old(clock)).drift(old(owner))
      ensures ok <==> turns(old(clock)).outcome == Answered
    {
      var turn := turns(clock);
      owner, clock := turn.drift(owner), clock + 1;
      return turn.outcome == Answered;
    }

    /** An email that is already taken is refused. */
    method CreateConfirmedUser() returns (ok: bool)
      modifies `clock, `owner, `writes
      ensures clock == old(clock) + 1 && writes == old(writes) + 1
      ensures
        var seen := turns(old(clock)).drift(old(owner));
        && owner == (if seen.NoUser? && turns(old(clock)).outcome != Lost then Created() else seen)
        && (ok <==> seen.NoUser? && turns(old(clock)).outcome == Answered)
    {
      var turn := turns(clock);
      var seen := turn.drift(owner);
      owner, clock, writes := if seen.NoUser? && turn.outcome != Lost then Created() else seen, clock + 1, writes + 1;
      return seen.NoUser? && turn.outcome == Answered;
    }

    method InitializeMembership() returns (ok: bool)
      modifies `clock, `owner, `writes, `initialised
      ensures clock == old(clock) + 1 && writes == old(writes) + 1
      ensures
        var seen := turns(old(clock)).drift(old(owner));
        var took := seen.User? && turns(old(clock)).outcome != Lost;
        && owner == (if took then seen.(ownerActive := true) else seen)
        && initialised == old(initialised) + (if took then [seen] else [])
        && (ok <==> turns(old(clock)).outcome == Answered)
    {
      var turn := turns(clock);
      owner, clock, writes := turn.drift(owner), clock + 1, writes + 1;
      if owner.User? && turn.outcome != Lost {
        initialised := initialised + [owner];
        owner := owner.(ownerActive := true);
      }
      return turn.outcome == Answered;
    }

    method UpdateMetadata(metadata: Document) returns (ok: bool)
      modifies `clock, `owner, `writes
      ensures clock == old(clock) + 1 && writes == old(writes) + 1
      ensures
        var seen := turns(old(clock)).drift(old(owner));
        var took := seen.User? && turns(old(clock)).outcome != Lost;
        && owner == (if took then seen.(metadata := Updated(seen.metadata, metadata, merges)) else seen)
        && (ok <==> took && turns(old(clock)).outcome == Answered)
    {
      var turn := turns(clock);
      var seen := turn.drift(owner);
      var took := seen.User? && turn.outcome != Lost;
      owner := if took then seen.(metadata := Updated(seen.metadata, metadata, merges)) else seen;
      clock, writes := clock + 1, writes + 1;
      return took && turn.outcome == Answered;
    }

    method SendRecovery() returns (ok: bool)
      modifies `clock, `owner, `writes, `emails, `emailed
      ensures clock == old(clock) + 1 && writes == old(writes) + 1
      ensures owner == turns(old(clock)).drift(old(owner))
      ensures emailed == old(emailed) + (if turns(old(clock)).outcome == Lost then [] else [owner])
      ensures emails == old(emails) + (if turns(old(clock)).outcome == Lost then 0 else 1)
      ensures ok <==> turns(old(clock)).outcome == Answered
    {
      var turn := turns(clock);
      owner, clock, writes := turn.drift(owner), clock + 1, writes + 1;
      if turn.outcome != Lost { emails, emailed := emails + 1, emailed + [owner]; }
      return turn.outcome == Answered;
    }
  }

  function Created(): (o: Owner)
    ensures o.User?
  {
    User(true, false, false, map[BOOTSTRAP_OWNER := Bool(true), CHANGE_REQUIRED := Bool(true)])
  }

  /** A new identity is the bootstrap's, has proved its mailbox by being created so, has to change the password, and has
      got no email yet. */
  lemma CreatedIsUnprompted()
    ensures Created().confirmed && !Created().signedIn && !Created().ownerActive && !Marked(Created())
    ensures Has(Created().metadata, BOOTSTRAP_OWNER, Bool(true)) && Has(Created().metadata, CHANGE_REQUIRED, Bool(true))
    ensures |Created().metadata| == 2
  {
    assert |BOOTSTRAP_OWNER| != |CHANGE_REQUIRED| && |RECOVERY_SENT| != |CHANGE_REQUIRED| && |RECOVERY_SENT| != |BOOTSTRAP_OWNER|;
    assert Created().metadata.Keys == {BOOTSTRAP_OWNER, CHANGE_REQUIRED};
  }

  datatype Status = Existing | New

  datatype Bootstrapped = Bootstrapped(identity: Status, membership: Status, recoverySent: bool)

  datatype Stop = NoAnswer | NotCreated | Unconfirmed | NotInitialised

  /** Whether another email counts: the marker is on the identity. */
  function Marks(o: Owner): nat {
    if Marked(o) then 1 else 0
  }

  /** What a run may do to the account of emails: one for the marker that it sets, or one for having failed; and the
      marker only after an email. */
  ghost predicate Accounted(before: Owner, emailsBefore: nat, after: Owner, emailsAfter: nat, failed: bool) {
    && emailsBefore <= emailsAfter <= emailsBefore + 1
    && Marks(before) <= Marks(after)
    && emailsAfter + Marks(before) <= emailsBefore + Marks(after) + (if failed then 1 else 0)
    && (Marked(after) && !Marked(before) ==> emailsAfter == emailsBefore + 1)
  }

  /** What the calls before the recovery keep: others' changes are lawful, and so are ours. */
  ghost predicate Quiet(before: Owner, after: Owner, emailsBefore: nat, emailsAfter: nat) {
    Lawful(before, after) && emailsAfter == emailsBefore
  }

  ghost predicate OnlyProven(before: seq<Owner>, after: seq<Owner>) {
    && before <= after
    && forall k :: |before| <= k < |after| ==> after[k].User? && after[k].confirmed
  }

  // ---------------------------------------------------------------------------------------------
  // The run
  // ---------------------------------------------------------------------------------------------

  /** The identity, created if there is none; one that was there before must have proved its mailbox. */
  method RequireIdentity(api: Supabase) returns (r: Result<(Owner, Status), Stop>)
    modifies api
    ensures r.Ok? ==> r.value.0 == api.owner && api.owner.User? && api.owner.confirmed
    ensures api.initialised == old(api.initialised) && api.emailed == old(api.emailed)
    ensures LawfulTurns(api.turns) ==> Quiet(old(api.owner), api.owner, old(api.emails), api.emails)
    ensures LawfulTurns(api.turns) && old(api.owner).User? ==> api.writes == old(api.writes) && (r.Ok? ==> r.value.1 == Existing)
    ensures r.Ok? ==> (r.value.1 == New <==> api.turns(old(api.clock)).drift(old(api.owner)).NoUser?)
    ensures Steady(api.turns) ==> api.owner == (if old(api.owner).NoUser? then Created() else old(api.owner))
    ensures Steady(api.turns) ==> (r.Ok? <==> old(api.owner).NoUser? || old(api.owner).confirmed)
  {
    hide Marked;
    var read := api.ReadOwner();
    if read.Err? { return Err(NoAnswer); }
    if read.value.NoUser? {
      var ok := api.ServerKey();
      if !ok { return Err(NoAnswer); }
      CreatedLawfully();
      ok := api.CreateConfirmedUser();
      if !ok { return Err(NoAnswer); }
      read := api.ReadOwner();
      if read.Err? { return Err(NoAnswer); }
      if read.value.NoUser? { return Err(NotCreated); }
      return if read.value.confirmed then Ok((read.value, New)) else Err(Unconfirmed);
    }
    return if read.value.confirmed then Ok((read.value, Existing)) else Err(Unconfirmed);
  }

  lemma CreatedLawfully()
    ensures Lawful(NoUser, Created())
  {}

  /** The membership of a proven identity, initialised if it is not active. */
  method RequireMembership(api: Supabase, state: Owner) returns (r: Result<(Owner, Status), Stop>)
    requires state == api.owner && state.User? && state.confirmed
    modifies api
    ensures r.Ok? ==> r.value.0 == api.owner && api.owner.User? && api.owner.ownerActive
    ensures LawfulTurns(api.turns) ==> OnlyProven(old(api.initialised), api.initialised)
    ensures LawfulTurns(api.turns) ==> Quiet(old(api.owner), api.owner, old(api.emails), api.emails)
    ensures state.ownerActive ==> api.writes == old(api.writes) && api.owner == state && r == Ok((state, Existing))
    ensures r.Ok? ==> (r.value.1 == New <==> !state.ownerActive)
    ensures api.emailed == old(api.emailed)
    ensures Steady(api.turns) ==> r.Ok? && api.owner == state.(ownerActive := true)
  {
    if state.ownerActive { return Ok((state, Existing)); }
    var ok := api.InitializeMembership();
    if !ok { return Err(NoAnswer); }
    var read := api.ReadOwner();
    if read.Err? { return Err(NoAnswer); }
    return if read.value.User? && read.value.ownerActive then Ok((read.value, New)) else Err(NotInitialised);
  }

  /** The metadata of the two updates around the email. */
  function Required(metadata: Document): Document {
    metadata[CHANGE_REQUIRED := Bool(true)] - {CHANGE_COMPLETED}
  }

  /** The identity when the email is sent to it. */
  function Prompted(o: Owner, merges: bool): Owner
    requires o.User?
  {
    o.(metadata := Updated(o.metadata, Required(o.metadata), merges))
  }

  /** Whoever gets the email has to change the password then. That it had been changed before is forgotten exactly when
      Auth replaces metadata; where it merges them, leaving the key out does not remove it. */
  lemma PromptedMustChange(o: Owner, merges: bool)
    requires o.User?
    ensures Has(Prompted(o, merges).metadata, CHANGE_REQUIRED, Bool(true))
    ensures CHANGE_COMPLETED in Prompted(o, merges).metadata <==> merges && CHANGE_COMPLETED in o.metadata
    ensures forall k :: k != CHANGE_REQUIRED && k != CHANGE_COMPLETED ==>
      (k in Prompted(o, merges).metadata <==> k in o.metadata)
      && (k in o.metadata ==> Prompted(o, merges).metadata[k] == o.metadata[k])
  {
    assert CHANGE_REQUIRED != CHANGE_COMPLETED by { assert |CHANGE_REQUIRED| != |CHANGE_COMPLETED|; }
  }

  ghost predicate StillThere(before: Owner, after: Owner)
    requires before.User?
  {
    && after.User? && (before.confirmed ==> after.confirmed) && (before.ownerActive ==> after.ownerActive)
    && (before.signedIn ==> after.signedIn)
  }

  /** The recovery email, unless the owner has signed in or the marker says that it was sent. */
  method RequireRecovery(api: Supabase, state: Owner) returns (r: Result<bool, Stop>)
    requires state == api.owner && state.User?
    modifies api
    ensures api.initialised == old(api.initialised)
    ensures LawfulTurns(api.turns) ==> Accounted(old(api.owner), old(api.emails), api.owner, api.emails, r.Err?)
    ensures LawfulTurns(api.turns) ==> StillThere(state, api.owner)
    ensures LawfulTurns(api.turns) && r.Ok? ==> state.signedIn || Marked(api.owner)
    ensures state.signedIn || Marked(state) ==> api.writes == old(api.writes) && api.owner == state && r == Ok(false)
    ensures state.signedIn || Marked(state) ==> api.emailed == old(api.emailed)
    ensures Steady(api.turns) && !(state.signedIn || Marked(state)) ==> r == Ok(true) && api.emailed == old(api.emailed) + [Prompted(state, api.merges)]
  {
    if state.signedIn || Has(state.metadata, RECOVERY_SENT, Bool(true)) { return Ok(false); }
    var metadata := Required(state.metadata);
    var ok := api.ServerKey();
    if !ok { return Err(NoAnswer); }
    ok := api.UpdateMetadata(metadata);
    if !ok { return Err(NoAnswer); }
    ok := api.SendRecovery();
    if !ok { return Err(NoAnswer); }
    ok := api.UpdateMetadata(metadata[RECOVERY_SENT := Bool(true)]);
    return if ok then Ok(true) else Err(NoAnswer);
  }

  /** The identity with its membership. */
  function Provided(o: Owner): (r: Owner)
    ensures r.User?
  {
    var there := if o.NoUser? then Created() else o;
    there.(ownerActive := true)
  }

  /** What a run that is not disturbed did. */
  function Report(o: Owner): Bootstrapped {
    Bootstrapped(if o.NoUser? then New else Existing, if o.User? && o.ownerActive then Existing else New,
                 o.NoUser? || !(o.signedIn || Marked(o)))
  }

  /** One run, which may stop at any call. As long as others act lawfully: an email is sent at most once, and either the
      marker is set for it or the run failed; a membership is initialised only for an identity whose mailbox was
      proved; a run that ends leaves nothing to do, and where nothing is to do a run writes nothing. Undisturbed, a run
      succeeds unless the identity was there unconfirmed, and reports what it found and did. */
  method BootstrapOwner(api: Supabase) returns (r: Result<Bootstrapped, Stop>)
    modifies api
    ensures LawfulTurns(api.turns) ==> Accounted(old(api.owner), old(api.emails), api.owner, api.emails, r.Err?)
    ensures LawfulTurns(api.turns) ==> OnlyProven(old(api.initialised), api.initialised)
    ensures LawfulTurns(api.turns) && r.Ok? ==> Settled(api.owner)
    ensures LawfulTurns(api.turns) && Settled(old(api.owner)) ==>
      && api.writes == old(api.writes) && Settled(api.owner)
      && (r.Ok? ==> r.value == Bootstrapped(Existing, Existing, false))
    ensures Steady(api.turns) && (old(api.owner).NoUser? || old(api.owner).confirmed) ==>
      && r == Ok(Report(old(api.owner))) && Settled(api.owner)
      && api.emailed == old(api.emailed)
           + (if Report(old(api.owner)).recoverySent then [Prompted(Provided(old(api.owner)), api.merges)] else [])
    ensures Steady(api.turns) && old(api.owner).User? && !old(api.owner).confirmed ==> r.Err? && api.emailed == old(api.emailed)
  {
    SteadyIsLawful(api.turns);
    hide Marked, LawfulTurns, Steady, Prompted;
    var identity := RequireIdentity(api);
    if identity.Err? { return Err(identity.error); }
    var membership := RequireMembership(api, identity.value.0);
    if membership.Err? { return Err(membership.error); }
    var recovery := RequireRecovery(api, membership.value.0);
    if recovery.Err? { return Err(recovery.error); }
    return Ok(Bootstrapped(identity.value.1, membership.value.1, recovery.value));
  }

  // ---------------------------------------------------------------------------------------------
  // Any number of runs
  // ---------------------------------------------------------------------------------------------

  /** The identity and the emails before each of any number of runs and after the last, and which runs failed. */
  ghost predicate Runs(owners: seq<Owner>, emails: seq<nat>, failed: seq<bool>) {
    && |owners| == |emails| == |failed| + 1
    && forall i :: 0 < i < |owners| ==> Accounted(owners[i - 1], emails[i - 1], owners[i], emails[i], failed[i - 1])
  }

  function Failures(failed: seq<bool>): nat {
    if failed == [] then 0 else Failures(failed[..|failed| - 1]) + (if failed[|failed| - 1] then 1 else 0)
  }

  lemma {:induction false} AccountedThroughout(owners: seq<Owner>, emails: seq<nat>, failed: seq<bool>, n: nat)
    requires Runs(owners, emails, failed) && n < |owners|
    ensures Marks(owners[0]) <= Marks(owners[n])
    ensures emails[n] + Marks(owners[0]) <= emails[0] + Marks(owners[n]) + Failures(failed[..n])
    ensures emails[0] <= emails[n] && (Marked(owners[n]) && !Marked(owners[0]) ==> emails[n] > emails[0])
  {
    if n > 0 {
      AccountedThroughout(owners, emails, failed, n - 1);
      assert Accounted(owners[n - 1], emails[n - 1], owners[n], emails[n], failed[n - 1]);
      assert failed[..n][..n - 1] == failed[..n - 1];
      assert Marked(owners[n]) && !Marked(owners[0]) && Marked(owners[n - 1]) ==> emails[n - 1] > emails[0];
    }
  }

  /** From an unmarked start, over any number of runs: the marker means that an email was sent, and no more emails are
      sent than one and one for every run that failed. */
  lemma EmailsBounded(owners: seq<Owner>, emails: seq<nat>, failed: seq<bool>, n: nat)
    requires Runs(owners, emails, failed) && n < |owners| && !Marked(owners[0]) && emails[0] == 0
    ensures Marked(owners[n]) ==> emails[n] >= 1
    ensures emails[n] <= 1 + Failures(failed[..n])
  {
    AccountedThroughout(owners, emails, failed, n);
  }

  lemma OneMoreRun(owners: seq<Owner>, emails: seq<nat>, failed: seq<bool>, owner: Owner, sent: nat, fails: bool)
    requires Runs(owners, emails, failed)
    requires Accounted(owners[|owners| - 1], emails[|emails| - 1], owner, sent, fails)
    ensures Runs(owners + [owner], emails + [sent], failed + [fails])
  {
    hide Accounted;
  }

  /** Run after run on the same systems, each stopping wherever it does: as long as others act lawfully, memberships are
      initialised only for identities whose mailbox is proved, and from an unmarked start the marker always means that
      an email was sent, and emails are at most one and one for every run that failed. */
  method BootstrapRepeatedly(api: Supabase, times: nat)
    returns (ghost owners: seq<Owner>, ghost emails: seq<nat>, ghost failed: seq<bool>)
    modifies api
    ensures |owners| == |emails| == |failed| + 1 == times + 1
    ensures owners[0] == old(api.owner) && emails[0] == old(api.emails)
    ensures owners[times] == api.owner && emails[times] == api.emails
    ensures LawfulTurns(api.turns) ==> OnlyProven(old(api.initialised), api.initialised)
    ensures LawfulTurns(api.turns) && !Marked(old(api.owner)) && old(api.emails) == 0 ==> forall n: nat :: n <= times ==>
      (Marked(owners[n]) ==> emails[n] >= 1) && emails[n] <= 1 + Failures(failed[..n])
  {
    owners, emails, failed := [api.owner], [api.emails], [];
    assert Runs(owners, emails, failed);
    hide Runs, Accounted, LawfulTurns, Marked, Failures, Settled;
    for n := 0 to times
      invariant |owners| == |emails| == |failed| + 1 == n + 1
      invariant owners[0] == old(api.owner) && emails[0] == old(api.emails)
      invariant owners[n] == api.owner && emails[n] == api.emails
      invariant LawfulTurns(api.turns) ==> Runs(owners, emails, failed)
      invariant LawfulTurns(api.turns) ==> OnlyProven(old(api.initialised), api.initialised)
    {
      var r := BootstrapOwner(api);
      if LawfulTurns(api.turns) { OneMoreRun(owners, emails, failed, api.owner, api.emails, r.Err?); }
      owners, emails, failed := owners + [api.owner], emails + [api.emails], failed + [r.Err?];
    }
    if LawfulTurns(api.turns) && !Marked(old(api.owner)) && old(api.emails) == 0 {
      forall n: nat | n <= times ensures (Marked(owners[n]) ==> emails[n] >= 1) && emails[n] <= 1 + Failures(failed[..n]) {
        EmailsBounded(owners, emails, failed, n);
      }
    }
  }
}
