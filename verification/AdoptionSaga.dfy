/** The adoption itself: read, check, act, read again; against an environment that may change anything between calls. */
module AdoptionSaga {
  import opened Text
  import opened AdoptionReason
  import opened JsonValues
  import opened AdoptionSnapshot
  import opened AdoptionEffects
  import opened Provenance

  /** The account as others have left it. */
  function Drifted(s: Snapshot, t: Turn): Snapshot {
    if t.drift == [] then s else t.drift[0]
  }

  /** Nobody else touches the account, and the database gives proper identifiers. */
  ghost predicate Undisturbed(turns: nat -> Turn) {
    forall i: nat :: turns(i).drift == [] && IsUuid(turns(i).waiverId)
  }

  /** Besides, every request takes effect and every call is answered. */
  ghost predicate Effective(turns: nat -> Turn) {
    Undisturbed(turns) && forall i: nat :: turns(i).outcome == Full && turns(i).replied
  }

  /** What `VerifyWaiver` asks of the account. */
  predicate WaiverVerified(s: Snapshot, current: Snapshot, q: Subject, reason: string) {
    && s.membership.id == current.membership.id && s.membership.organizationId == q.organizationId
    && s.membership.profileId == current.auth.userId && s.membership.role == "operator"
    && s.membership.status == "active" && s.membership.permissions == [] && s.membership.count == 1
    && IsUuid(s.waiver.id) && s.waiver.status == "active" && s.waiver.scope == "workspace_generation"
    && s.waiver.grantedRole == "operator" && s.waiver.count == 1 && s.waiver.previousRole == "trainee"
    && s.waiver.grantedBy == q.invitedBy && s.waiver.reason == reason
  }

  /** The helper accepts exactly an account whose membership, up to its times, and whose waiver, up to identifiers, are those
      of the verified operator. */
  lemma VerifiedExactly(s: Snapshot, current: Snapshot, q: Subject, c: Classification)
    requires AcceptedAs(current, q, c, ConfirmedOperator)
    ensures WaiverVerified(s, current, q, current.waiver.reason) <==>
      && s.membership.(createdAt := current.membership.createdAt, updatedAt := current.membership.updatedAt) == current.membership
      && IsUuid(s.waiver.id)
      && s.waiver.(id := current.waiver.id, organizationId := current.waiver.organizationId,
                   profileId := current.waiver.profileId) == current.waiver
  {
    AcceptedParts(current, q, c, ConfirmedOperator);
    hide Classify, DisplayNameState, MatchesReason, SoundAccount, SoundOrganization, IsUuid;
  }

  /** The remote systems: the account, what was read and requested so far, and how many waivers were granted. */
  class Remote {
    const turns: nat -> Turn
    var clock: nat
    var account: Snapshot
    var snapshots: seq<Snapshot>
    var actions: seq<Action>
    var grants: nat

    constructor (turns: nat -> Turn, account: Snapshot)
      ensures this.turns == turns && this.account == account && clock == 0
      ensures snapshots == [] && actions == [] && grants == 0
    {
      this.turns, this.account, clock := turns, account, 0;
      snapshots, actions, grants := [], [], 0;
    }

    method Read() returns (r: Result<Snapshot, ()>)
      modifies `clock, `account, `snapshots
      ensures clock == old(clock) + 1 && account == Drifted(old(account), turns(old(clock)))
      ensures r.Ok? <==> turns(old(clock)).replied
      ensures r.Ok? ==> r.value == account && snapshots == old(snapshots) + [account]
      ensures r.Err? ==> snapshots == old(snapshots)
    {
      var turn := turns(clock);
      account, clock := Drifted(account, turn), clock + 1;
      if !turn.replied { return Err(()); }
      snapshots := snapshots + [account];
      return Ok(account);
    }

    /** The server key, which is asked for only once a write or the recovery is due. */
    method ServerKey() returns (ok: bool)
      modifies `clock, `account
      ensures clock == old(clock) + 1 && account == Drifted(old(account), turns(old(clock)))
      ensures ok <==> turns(old(clock)).replied
    {
      var turn := turns(clock);
      account, clock := Drifted(account, turn), clock + 1;
      return turn.replied;
    }

    method Act(q: Subject, a: Action) returns (ok: bool)
      modifies `clock, `account, `actions, `grants
      ensures clock == old(clock) + 1 && actions == old(actions) + [a]
      ensures
        var turn := turns(old(clock));
        var seen := Drifted(old(account), turn);
        && account == Effect(seen, q, a, turn)
        && grants == old(grants) + (if Grants(seen, a, turn) then 1 else 0)
        && (ok <==> turn.replied)
      ensures a == SendRecovery ==> account == Drifted(old(account), turns(old(clock))) && grants == old(grants)
    {
      var turn := turns(clock);
      var seen := Drifted(account, turn);
      actions := actions + [a];
      account, clock := Effect(seen, q, a, turn), clock + 1;
      if Grants(seen, a, turn) { grants := grants + 1; }
      return turn.replied;
    }

    method VerifyWaiver(current: Snapshot, q: Subject, reason: string) returns (ok: bool)
      modifies `clock, `account
      ensures clock == old(clock) + 1 && account == Drifted(old(account), turns(old(clock)))
      ensures ok <==> turns(old(clock)).replied && WaiverVerified(account, current, q, reason)
    {
      var turn := turns(clock);
      account, clock := Drifted(account, turn), clock + 1;
      return turn.replied && WaiverVerified(account, current, q, reason);
    }
  }

  datatype IdentityStatus =
    | PreflightOnly
    | ConfirmationAlreadyComplete
    | DisplayNameRepaired
    | RepairedAndConfirmed
    | ConfirmedByAdoption
    | WaiverAlreadyComplete

  datatype Adopted = Adopted(classification: Classification, phase: Phase, identity: IdentityStatus, recovery: bool)

  datatype Stop = Unanswered | Refused(refusal: Refusal) | Changed

  /** What a successful run says about the identity it found in a phase. */
  function StatusFrom(phase: Phase): IdentityStatus {
    match phase
    case UnconfirmedTraineeMissingName => RepairedAndConfirmed
    case ConfirmedTraineeMissingName => DisplayNameRepaired
    case UnconfirmedTrainee => ConfirmedByAdoption
    case ConfirmedTrainee => ConfirmationAlreadyComplete
    case ConfirmedOperator => WaiverAlreadyComplete
  }

  /** The snapshot that an effective action must lead to, compared field by field, except that a grant may choose the
      time, the waiver's fields being checked by the phase. */
  predicate IsTransition(before: Snapshot, after: Snapshot, q: Subject, phase: Phase, reason: string) {
    match phase
    case UnconfirmedTrainee =>
      after == before.(auth := before.auth.(confirmed := true, userMetadata := Named(q.displayName, true)))
    case ConfirmedTrainee =>
      && after.(membership := after.membership.(role := before.membership.role, updatedAt := before.membership.updatedAt),
                waiver := before.waiver) == before
      && after.waiver.reason == reason
    case ConfirmedOperator => false
    case _ =>
      after == before.(auth := before.auth.(userMetadata := Named(q.displayName, before.auth.confirmed),
                                            displayName := q.displayName),
                       profile := before.profile.(displayName := q.displayName))
  }

  lemma TransitionSameAccount(before: Snapshot, after: Snapshot, q: Subject, phase: Phase, reason: string)
    requires IsTransition(before, after, q, phase, reason)
    ensures SameAccount(before, after)
  {}

  /** An effective action passes the check. */
  lemma EffectIsTransition(s: Snapshot, q: Subject, c: Classification, phase: Phase, reason: string, t: Turn)
    requires AcceptedAs(s, q, c, phase) && phase != ConfirmedOperator && t.outcome == Full
    ensures IsTransition(s, Effect(s, q, Plan(phase, reason)[0], t), q, phase, reason)
  {
    AcceptedParts(s, q, c, phase);
    hide InBoundary, Classify, MatchesReason, AcceptedAs;
    if MissingName(phase) {
      MetadataNamed(s, q.displayName);
    } else if phase == UnconfirmedTrainee {
      assert s.auth.userMetadata["email_verified" := Bool(true)] == Named(q.displayName, true);
    }
  }

  lemma MetadataNamed(s: Snapshot, name: string)
    requires DisplayNameState(s, name).Ok?
    ensures s.auth.userMetadata["display_name" := Json.Text(name)] == Named(name, s.auth.confirmed)
  {}

  // ---------------------------------------------------------------------------------------------
  // One step of the saga
  // ---------------------------------------------------------------------------------------------

  /** What a run leaves behind when nobody else interferes: the account is kept, and a waiver was granted exactly if the
      account has become the operator's. */
  ghost predicate Faithful(q: Subject, before: Snapshot, grantsBefore: nat, after: Snapshot, grantsAfter: nat) {
    Kept(q, before, after) && grantsAfter + Operators(q, before) == grantsBefore + Operators(q, after)
  }

  lemma FaithfulTransitive(q: Subject, a: Snapshot, i: nat, b: Snapshot, j: nat, c: Snapshot, k: nat)
    requires Faithful(q, a, i, b, j) && Faithful(q, b, j, c, k)
    ensures Faithful(q, a, i, c, k)
  {
    hide Kept, Operators;
    KeptTransitive(q, a, b, c);
  }

  lemma FaithfulReflexive(q: Subject, s: Snapshot, grants: nat)
    ensures Faithful(q, s, grants, s, grants)
  {
    hide Kept, Operators;
    KeptReflexive(q, s);
  }

  /** Issue the action of the phase, read the account again, and go on only from exactly the expected state. */
  method Advance(remote: Remote, q: Subject, c: Classification, phase: Phase, current: Snapshot, context: AuditContext)
    returns (r: Result<Snapshot, Stop>)
    requires IsSubject(q) && IsAuditContext(context) && AcceptedAs(current, q, c, phase) && phase != ConfirmedOperator
    modifies remote
    ensures remote.actions == old(remote.actions) + [Plan(phase, Reason(c, context))[0]]
    ensures old(remote.snapshots) <= remote.snapshots
    ensures r.Ok? ==> remote.snapshots == old(remote.snapshots) + [r.value] && AcceptedAs(r.value, q, c, NextPhase(phase))
    ensures r.Ok? ==> IsTransition(current, r.value, q, phase, Reason(c, context))
    ensures Undisturbed(remote.turns) && old(remote.account) == current ==>
      Faithful(q, current, old(remote.grants), remote.account, remote.grants)
    ensures Undisturbed(remote.turns) && old(remote.account) == current && r.Ok? ==> remote.account == r.value
    ensures Effective(remote.turns) && old(remote.account) == current ==> r.Ok?
  {
    hide Validate, IsTransition, Reason, Effect, Kept, IsSubject, IsAuditContext, Grants, NextPhase;
    var action := Plan(phase, Reason(c, context))[0];
    var turn := remote.turns(remote.clock);
    assert Operators(q, current) == 0;
    hide Operators;
    if Undisturbed(remote.turns) && remote.account == current {
      ActionKeeps(current, q, c, phase, context, turn);
      if turn.outcome == Full { EffectIsTransition(current, q, c, phase, Reason(c, context), turn); }
    }
    var ok := remote.Act(q, action);
    if !ok { return Err(Unanswered); }
    var read := remote.Read();
    if read.Err? { return Err(Unanswered); }
    var after := read.value;
    var accepted := Validate(after, q);
    if accepted.Err? { return Err(Refused(accepted.error)); }
    if accepted.value != Accepted(c, NextPhase(phase)) || !IsTransition(current, after, q, phase, Reason(c, context)) {
      return Err(Changed);
    }
    return Ok(after);
  }

  /** Where a run stands: what it has sent and what the phase still calls for are together the plan it started with,
      and the account that it read last differs from the first only where it may. */
  ghost predicate UnderWay(q: Subject, c: Classification, reason: string, start: Phase, first: Snapshot,
                           sent: seq<Action>, phase: Phase, current: Snapshot) {
    && AcceptedAs(current, q, c, phase)
    && SameAccount(first, current)
    && sent + Plan(phase, reason) == Plan(start, reason)
    && (phase == ConfirmedOperator ==> if start == ConfirmedOperator then current == first else current.waiver.reason == reason)
  }

  lemma Advanced(q: Subject, c: Classification, reason: string, start: Phase, first: Snapshot,
                 sent: seq<Action>, phase: Phase, current: Snapshot, after: Snapshot)
    requires UnderWay(q, c, reason, start, first, sent, phase, current) && phase != ConfirmedOperator
    requires AcceptedAs(after, q, c, NextPhase(phase)) && IsTransition(current, after, q, phase, reason)
    ensures UnderWay(q, c, reason, start, first, sent + [Plan(phase, reason)[0]], NextPhase(phase), after)
  {
    hide AcceptedAs;
    TransitionSameAccount(current, after, q, phase, reason);
    SameAccountTransitive(first, current, after);
    assert Plan(phase, reason) == [Plan(phase, reason)[0]] + Plan(NextPhase(phase), reason);
    Assoc(sent, [Plan(phase, reason)[0]], Plan(NextPhase(phase), reason));
    assert start == ConfirmedOperator ==> |Plan(start, reason)| == 0;
    assert phase == ConfirmedTrainee ==> after.waiver.reason == reason;
  }

  lemma OperatorVerified(s: Snapshot, q: Subject, c: Classification)
    requires AcceptedAs(s, q, c, ConfirmedOperator)
    ensures WaiverVerified(s, s, q, s.waiver.reason)
  {
    AcceptedParts(s, q, c, ConfirmedOperator);
    hide Classify, DisplayNameState, MatchesReason, SoundAccount, SoundOrganization, IsUuid;
  }

  // ---------------------------------------------------------------------------------------------
  // The run
  // ---------------------------------------------------------------------------------------------

  /** What the account was, and what had been requested and granted, when a run began. */
  datatype Origin = Origin(account: Snapshot, actions: seq<Action>, grants: nat, start: Phase, first: Snapshot)

  ghost predicate Traced(remote: Remote, o: Origin, q: Subject, c: Classification, reason: string,
                         sent: seq<Action>, phase: Phase, current: Snapshot)
    reads remote
  {
    && remote.actions == o.actions + sent
    && UnderWay(q, c, reason, o.start, o.first, sent, phase, current)
    && (Undisturbed(remote.turns) ==>
          remote.account == current && Faithful(q, o.account, o.grants, remote.account, remote.grants))
  }

  /** One stage of the run, with the server key before it where none is at hand yet. */
  method Stage(remote: Remote, q: Subject, c: Classification, phase: Phase, current: Snapshot, context: AuditContext,
               needsKey: bool, ghost o: Origin, ghost sent: seq<Action>)
    returns (r: Result<Snapshot, Stop>, ghost more: seq<Action>)
    requires IsSubject(q) && IsAuditContext(context) && phase != ConfirmedOperator
    requires Traced(remote, o, q, c, Reason(c, context), sent, phase, current)
    modifies remote
    ensures remote.actions == o.actions + more && more <= Plan(o.start, Reason(c, context))
    ensures old(remote.snapshots) <= remote.snapshots
    ensures r.Ok? ==> remote.snapshots == old(remote.snapshots) + [r.value]
    ensures r.Ok? ==> Traced(remote, o, q, c, Reason(c, context), more, NextPhase(phase), r.value)
    ensures Undisturbed(remote.turns) ==> Faithful(q, o.account, o.grants, remote.account, remote.grants)
    ensures Effective(remote.turns) ==> r.Ok?
  {
    hide Plan, NextPhase, Reason, IsSubject, IsAuditContext, Faithful, AcceptedAs, SameAccount, IsTransition;
    more := sent;
    if needsKey {
      var ok := remote.ServerKey();
      if !ok { return Err(Unanswered), sent; }
    }
    ghost var grants := remote.grants;
    r := Advance(remote, q, c, phase, current, context);
    NextOfPlan(phase, Reason(c, context));
    more := sent + [Plan(phase, Reason(c, context))[0]];
    Assoc(o.actions, sent, [Plan(phase, Reason(c, context))[0]]);
    Assoc(sent, [Plan(phase, Reason(c, context))[0]], Plan(NextPhase(phase), Reason(c, context)));
    if Undisturbed(remote.turns) {
      FaithfulTransitive(q, o.account, o.grants, current, grants, remote.account, remote.grants);
    }
    if r.Ok? {
      Advanced(q, c, Reason(c, context), o.start, o.first, sent, phase, current, r.value);
    }
  }

  lemma NextOfPlan(phase: Phase, reason: string)
    requires phase != ConfirmedOperator
    ensures Plan(phase, reason) == [Plan(phase, reason)[0]] + Plan(NextPhase(phase), reason)
  {}

  /** The last checks and the recovery: it is requested only when one more read gives the verified account again. */
  method Finish(remote: Remote, q: Subject, c: Classification, current: Snapshot, reason: string, needsKey: bool)
    returns (r: Result<(), Stop>, ghost requested: bool)
    requires AcceptedAs(current, q, c, ConfirmedOperator) && current.waiver.reason == reason
    modifies remote
    ensures remote.actions == old(remote.actions) + (if requested then [SendRecovery] else [])
    ensures old(remote.snapshots) <= remote.snapshots
    ensures requested ==> remote.snapshots == old(remote.snapshots) + [current]
    ensures r.Ok? ==> requested
    ensures Undisturbed(remote.turns) ==> remote.account == old(remote.account) && remote.grants == old(remote.grants)
    ensures Effective(remote.turns) && old(remote.account) == current ==> r.Ok?
  {
    OperatorVerified(current, q, c);
    hide WaiverVerified, Validate, Effect, Grants;
    var verified := remote.VerifyWaiver(current, q, reason);
    if !verified { return Err(Unanswered), false; }
    if needsKey {
      var ok := remote.ServerKey();
      if !ok { return Err(Unanswered), false; }
    }
    var final := remote.Read();
    if final.Err? { return Err(Unanswered), false; }
    var accepted := Validate(final.value, q);
    if accepted.Err? { return Err(Refused(accepted.error)), false; }
    if accepted.value != Accepted(c, ConfirmedOperator) || final.value != current { return Err(Changed), false; }
    var sent := remote.Act(q, SendRecovery);
    return if sent then Ok(()) else Err(Unanswered), true;
  }

  /** The recovery is due: the account was read twice in a row as the verified operator's, and it is the account that
      the run began with. */
  ghost predicate Recoverable(snapshots: seq<Snapshot>, q: Subject, c: Classification, reason: string, o: Origin,
                              current: Snapshot) {
    var n := |snapshots|;
    && n >= 2 && snapshots[n - 1] == current == snapshots[n - 2]
    && AcceptedAs(current, q, c, ConfirmedOperator) && SameAccount(o.first, current)
    && (if o.start == ConfirmedOperator then current == o.first else current.waiver.reason == reason)
  }

  /** One more read of the same account. */
  lemma ReadAgain(before: seq<Snapshot>, q: Subject, c: Classification, reason: string, o: Origin, sent: seq<Action>,
                  current: Snapshot)
    requires UnderWay(q, c, reason, o.start, o.first, sent, ConfirmedOperator, current)
    requires before != [] && before[|before| - 1] == current
    ensures Recoverable(before + [current], q, c, reason, o, current)
  {
    hide AcceptedAs, SameAccount, Plan;
    AtOperator(q, c, reason, o.start, o.first, sent, current);
  }

  lemma ReasonOfOperator(remote: Remote, o: Origin, q: Subject, c: Classification, reason: string,
                         sent: seq<Action>, current: Snapshot)
    requires Traced(remote, o, q, c, reason, sent, ConfirmedOperator, current)
    ensures o.start != ConfirmedOperator ==> current.waiver.reason == reason
  {
    hide AcceptedAs, SameAccount, Plan;
  }

  lemma TracedParts(remote: Remote, o: Origin, q: Subject, c: Classification, reason: string, sent: seq<Action>,
                    current: Snapshot)
    requires Traced(remote, o, q, c, reason, sent, ConfirmedOperator, current)
    ensures UnderWay(q, c, reason, o.start, o.first, sent, ConfirmedOperator, current) && remote.actions == o.actions + sent
    ensures Undisturbed(remote.turns) ==>
      remote.account == current && Faithful(q, o.account, o.grants, remote.account, remote.grants)
    ensures Effective(remote.turns) ==> Undisturbed(remote.turns)
  {
    hide UnderWay, Faithful;
  }

  lemma ReadLast(before: seq<Snapshot>, q: Subject, c: Classification, reason: string, o: Origin, sent: seq<Action>,
                 current: Snapshot)
    requires UnderWay(q, c, reason, o.start, o.first, sent, ConfirmedOperator, current) && LastRead(before, current)
    ensures Recoverable(before + [current], q, c, reason, o, current) && Extends(before, before + [current])
    ensures forall after :: before <= after ==> Extends(before, after)
  {
    hide UnderWay;
    ReadAgain(before, q, c, reason, o, sent, current);
  }

  predicate Extends(before: seq<Snapshot>, after: seq<Snapshot>) {
    before <= after
  }

  lemma ExtendsLonger(a: seq<Snapshot>, b: seq<Snapshot>)
    requires Extends(a, b)
    ensures |a| <= |b|
  {}

  lemma ExtendsFurther(a: seq<Snapshot>, b: seq<Snapshot>, c: seq<Snapshot>)
    requires Extends(a, b) && Extends(b, c)
    ensures Extends(a, c)
  {}

  method Conclude(remote: Remote, q: Subject, c: Classification, current: Snapshot, ghost printed: string,
                  reason: string, needsKey: bool, ghost o: Origin, ghost sent: seq<Action>)
    returns (r: Result<(), Stop>, ghost more: seq<Action>)
    requires Traced(remote, o, q, c, printed, sent, ConfirmedOperator, current) && current.waiver.reason == reason
    requires LastRead(remote.snapshots, current)
    modifies remote
    ensures remote.actions == o.actions + more && more <= Plan(o.start, printed) + [SendRecovery]
    ensures Extends(old(remote.snapshots), remote.snapshots)
    ensures SendRecovery in more ==> Recoverable(remote.snapshots, q, c, printed, o, current)
    ensures SendRecovery in more ==> |old(remote.snapshots)| < |remote.snapshots|
    ensures r.Ok? ==> more == Plan(o.start, printed) + [SendRecovery]
    ensures Undisturbed(remote.turns) ==> Faithful(q, o.account, o.grants, remote.account, remote.grants)
    ensures Undisturbed(remote.turns) ==> AcceptedAs(remote.account, q, c, ConfirmedOperator)
    ensures Effective(remote.turns) ==> r.Ok?
  {
    hide *;
    TracedParts(remote, o, q, c, printed, sent, current);
    AtOperator(q, c, printed, o.start, o.first, sent, current);
    PlanExtends(sent, o.start, printed);
    Assoc(o.actions, sent, [SendRecovery]);
    ReadLast(remote.snapshots, q, c, printed, o, sent, current);
    var finished, requested := Finish(remote, q, c, current, reason, needsKey);
    more := if requested then sent + [SendRecovery] else sent;
    r := finished;
  }

  function AfterRepair(phase: Phase): Phase {
    if MissingName(phase) then NextPhase(phase) else phase
  }

  function AfterConfirmation(phase: Phase): Phase {
    if phase == UnconfirmedTrainee then NextPhase(phase) else phase
  }

  /** A stage that is passed through when the phase does not call for it. */
  method StageIf(due: bool, remote: Remote, q: Subject, c: Classification, phase: Phase, current: Snapshot,
                 context: AuditContext, needsKey: bool, ghost o: Origin, ghost sent: seq<Action>)
    returns (r: Result<Snapshot, Stop>, ghost more: seq<Action>)
    requires IsSubject(q) && IsAuditContext(context) && (due ==> phase != ConfirmedOperator)
    requires Traced(remote, o, q, c, Reason(c, context), sent, phase, current)
    requires LastRead(remote.snapshots, current)
    modifies remote
    ensures remote.actions == o.actions + more && more <= Plan(o.start, Reason(c, context))
    ensures Extends(old(remote.snapshots), remote.snapshots)
    ensures r.Ok? ==> LastRead(remote.snapshots, r.value)
    ensures r.Ok? ==> Traced(remote, o, q, c, Reason(c, context), more, if due then NextPhase(phase) else phase, r.value)
    ensures !due ==> r == Ok(current) && remote.snapshots == old(remote.snapshots)
    ensures Undisturbed(remote.turns) ==> Faithful(q, o.account, o.grants, remote.account, remote.grants)
    ensures Effective(remote.turns) ==> r.Ok?
  {
    hide Plan, UnderWay, Faithful, AcceptedAs, SameAccount, Reason, IsSubject, IsAuditContext, NextPhase;
    if due {
      r, more := Stage(remote, q, c, phase, current, context, needsKey, o, sent);
    } else {
      SentOfPlan(q, c, Reason(c, context), o.start, o.first, sent, phase, current);
      r, more := Ok(current), sent;
    }
  }

  predicate LastRead(snapshots: seq<Snapshot>, current: Snapshot) {
    snapshots != [] && snapshots[|snapshots| - 1] == current
  }

  lemma SentOfPlan(q: Subject, c: Classification, reason: string, start: Phase, first: Snapshot, sent: seq<Action>,
                   phase: Phase, current: Snapshot)
    requires UnderWay(q, c, reason, start, first, sent, phase, current)
    ensures sent <= Plan(start, reason)
  {
    hide Plan, AcceptedAs, SameAccount;
  }

  /** Which stages a phase calls for, and how the run reports them. */
  lemma Course(start: Phase)
    ensures
      var repair := MissingName(start);
      var phase := AfterRepair(start);
      var confirm := phase == UnconfirmedTrainee;
      var done := AfterConfirmation(phase);
      && phase == (if repair then NextPhase(start) else start)
      && done == (if confirm then NextPhase(phase) else phase)
      && (done == ConfirmedTrainee || (done == ConfirmedOperator && start == ConfirmedOperator && !repair && !confirm))
      && NextPhase(ConfirmedTrainee) == ConfirmedOperator
      && (repair ==> start != ConfirmedOperator)
      && StatusFrom(start) == if repair && confirm then RepairedAndConfirmed
                              else if repair then DisplayNameRepaired
                              else if confirm then ConfirmedByAdoption
                              else if phase == ConfirmedOperator then WaiverAlreadyComplete
                              else ConfirmationAlreadyComplete
  {}

  /** The stages that the phase calls for, then the end. */
  method Resume(remote: Remote, q: Subject, c: Classification, start: Phase, initial: Snapshot, context: AuditContext,
                ghost o: Origin)
    returns (r: Result<IdentityStatus, Stop>, ghost sent: seq<Action>, ghost current: Snapshot)
    requires IsSubject(q) && IsAuditContext(context)
    requires o.start == start && o.first == initial && Traced(remote, o, q, c, Reason(c, context), [], start, initial)
    requires LastRead(remote.snapshots, initial)
    modifies remote
    ensures remote.actions == o.actions + sent && sent <= Plan(start, Reason(c, context)) + [SendRecovery]
    ensures Extends(old(remote.snapshots), remote.snapshots)
    ensures SendRecovery in sent ==> Recoverable(remote.snapshots, q, c, Reason(c, context), o, current)
    ensures SendRecovery in sent ==> |old(remote.snapshots)| < |remote.snapshots|
    ensures r.Ok? ==> sent == Plan(start, Reason(c, context)) + [SendRecovery] && r.value == StatusFrom(start)
    ensures Undisturbed(remote.turns) ==> Faithful(q, o.account, o.grants, remote.account, remote.grants)
    ensures Undisturbed(remote.turns) && r.Ok? ==> AcceptedAs(remote.account, q, c, ConfirmedOperator)
    ensures Effective(remote.turns) ==> r.Ok?
  {
    Course(start);
    hide *;
    ghost var old0 := remote.snapshots;
    var repair := MissingName(start);
    var phase := AfterRepair(start);
    var confirm := phase == UnconfirmedTrainee;
    var done := AfterConfirmation(phase);
    var grant := done == ConfirmedTrainee;
    var identity := if repair && confirm then RepairedAndConfirmed
                    else if repair then DisplayNameRepaired
                    else if confirm then ConfirmedByAdoption
                    else if phase == ConfirmedOperator then WaiverAlreadyComplete
                    else ConfirmationAlreadyComplete;
    current := initial;
    var repaired, afterRepair := StageIf(repair, remote, q, c, start, initial, context, true, o, []);
    sent := afterRepair;
    ghost var old1 := remote.snapshots;
    PlanExtends(sent, start, Reason(c, context));
    if repaired.Err? { return Err(repaired.error), sent, current; }
    var confirmed, afterConfirm := StageIf(confirm, remote, q, c, phase, repaired.value, context, !repair, o, sent);
    sent := afterConfirm;
    ghost var old2 := remote.snapshots;
    ExtendsFurther(old0, old1, old2);
    PlanExtends(sent, start, Reason(c, context));
    if confirmed.Err? { return Err(confirmed.error), sent, current; }
    var reason := if done == ConfirmedOperator then confirmed.value.waiver.reason else Reason(c, context);
    var granted, afterGrant := StageIf(grant, remote, q, c, done, confirmed.value, context, false, o, sent);
    sent := afterGrant;
    ghost var old3 := remote.snapshots;
    ExtendsFurther(old0, old2, old3);
    PlanExtends(sent, start, Reason(c, context));
    if granted.Err? { return Err(granted.error), sent, current; }
    current := granted.value;
    ReasonOfOperator(remote, o, q, c, Reason(c, context), sent, current);
    var concluded, more := Conclude(remote, q, c, granted.value, Reason(c, context), reason, !repair && !confirm, o, sent);
    sent := more;
    ExtendsFurther(old0, old3, remote.snapshots);
    ExtendsLonger(old0, old3);
    return if concluded.Ok? then Ok(identity) else Err(concluded.error), sent, current;
  }

  lemma PlanStarts(start: Phase, reason: string)
    ensures SendRecovery !in Plan(start, reason) && [] + Plan(start, reason) == Plan(start, reason)
  {}

  lemma PlanExtends(sent: seq<Action>, start: Phase, reason: string)
    requires sent <= Plan(start, reason)
    ensures sent <= Plan(start, reason) + [SendRecovery] && SendRecovery !in sent
    ensures sent == Plan(start, reason) ==> sent + [SendRecovery] <= Plan(start, reason) + [SendRecovery]
  {
    PlanStarts(start, reason);
    hide Plan;
  }

  lemma AtOperator(q: Subject, c: Classification, reason: string, start: Phase, first: Snapshot,
                   sent: seq<Action>, current: Snapshot)
    requires UnderWay(q, c, reason, start, first, sent, ConfirmedOperator, current)
    ensures sent == Plan(start, reason) && AcceptedAs(current, q, c, ConfirmedOperator) && SameAccount(first, current)
    ensures if start == ConfirmedOperator then current == first else current.waiver.reason == reason
  {
    hide AcceptedAs, SameAccount;
  }

  /** What the first read of a run decides. */
  ghost predicate RunSends(sent: seq<Action>, first: Snapshot, q: Subject, context: AuditContext, whole: bool) {
    && Validate(first, q).Ok?
    && var a := Validate(first, q).value;
       var plan := Plan(a.phase, Reason(a.classification, context)) + [SendRecovery];
       if whole then sent == plan else sent <= plan
  }

  /** The recovery follows two equal reads of an accepted operator account, which differs from the account of the
      first read only in user metadata, display names, confirmation, role and its time, and the waiver; and whose
      waiver gives this run's reason, or was there from the start. */
  ghost predicate RecoveryIsDue(snapshots: seq<Snapshot>, start: nat, q: Subject, context: AuditContext)
    requires start < |snapshots|
  {
    var first, n := snapshots[start], |snapshots|;
    && Validate(first, q).Ok?
    && var a := Validate(first, q).value;
       && n >= start + 2 && snapshots[n - 1] == snapshots[n - 2]
       && AcceptedAs(snapshots[n - 1], q, a.classification, ConfirmedOperator)
       && SameAccount(first, snapshots[n - 1])
       && (if a.phase == ConfirmedOperator then snapshots[n - 1] == first
           else snapshots[n - 1].waiver.reason == Reason(a.classification, context))
  }

  lemma DueFromRecoverable(before: seq<Snapshot>, snapshots: seq<Snapshot>, q: Subject, c: Classification,
                           context: AuditContext, o: Origin, current: Snapshot)
    requires AcceptedAs(o.first, q, c, o.start) && Recoverable(snapshots, q, c, Reason(c, context), o, current)
    requires |before| + 2 <= |snapshots| && snapshots[|before|] == o.first
    ensures RecoveryIsDue(snapshots, |before|, q, context)
  {
    hide Validate, SameAccount, Reason;
  }

  /** One run, from the first read. Whatever others do meanwhile, its requests are a first part of what the first read
      calls for; the recovery is due when it is requested; and success means that all of it was requested. When nobody
      interferes, the account is kept and at most one waiver is granted, however the run ends; and when besides every
      request takes effect, a run over an accepted account reaches the operator. */
  method Adopt(remote: Remote, q: Subject, context: AuditContext, apply: bool)
    returns (r: Result<Adopted, Stop>, ghost sent: seq<Action>)
    requires IsSubject(q) && (apply ==> IsAuditContext(context))
    modifies remote
    ensures remote.actions == old(remote.actions) + sent
    ensures Extends(old(remote.snapshots), remote.snapshots)
    ensures !apply ==> sent == []
    ensures sent != [] ==> |old(remote.snapshots)| < |remote.snapshots|
    ensures sent != [] ==> RunSends(sent, remote.snapshots[|old(remote.snapshots)|], q, context, false)
    ensures SendRecovery in sent ==> RecoveryIsDue(remote.snapshots, |old(remote.snapshots)|, q, context)
    ensures r.Ok? ==> |old(remote.snapshots)| < |remote.snapshots|
    ensures r.Ok? && apply ==> RunSends(sent, remote.snapshots[|old(remote.snapshots)|], q, context, true)
    ensures r.Ok? ==>
      var a := Validate(remote.snapshots[|old(remote.snapshots)|], q);
      && a.Ok?
      && r.value == if apply then Adopted(a.value.classification, ConfirmedOperator, StatusFrom(a.value.phase), true)
                    else Adopted(a.value.classification, a.value.phase, PreflightOnly, false)
    ensures r.Ok? ==> ProvisionedAs(remote.snapshots[|old(remote.snapshots)|], r.value.classification)
    ensures Undisturbed(remote.turns) ==>
      Faithful(q, old(remote.account), old(remote.grants), remote.account, remote.grants)
    ensures Undisturbed(remote.turns) && apply && r.Ok? ==> Operators(q, remote.account) == 1
    ensures Effective(remote.turns) && Validate(old(remote.account), q).Ok? ==> r.Ok?
  {
    ghost var before, began := remote.snapshots, remote.account;
    FaithfulReflexive(q, remote.account, remote.grants);
    assert Effective(remote.turns) ==> Undisturbed(remote.turns);
    assert Extends(before, before);
    hide *;
    sent := [];
    var first := ReadAccepted(remote, q);
    ExtendsOnce(before, remote.snapshots);
    if first.Err? { return Err(first.error), []; }
    var initial, a := first.value.0, first.value.1;
    if !apply { return Ok(Adopted(a.classification, a.phase, PreflightOnly, false)), []; }
    ghost var once := remote.snapshots;
    var again := ReadAccepted(remote, q);
    ExtendsOnce(once, remote.snapshots);
    ExtendsFurther(before, once, remote.snapshots);
    if again.Err? { return Err(again.error), []; }
    if again.value.1 != a || again.value.0 != initial { return Err(Changed), []; }
    ghost var o := Origin(began, remote.actions, remote.grants, a.phase, initial);
    ghost var twice := remote.snapshots;
    AcceptedIs(initial, q, a);
    StartsTraced(remote, o, q, a.classification, Reason(a.classification, context));
    ReadTwice(before, once, twice, initial);
    var resumed, more, current := Resume(remote, q, a.classification, a.phase, initial, context, o);
    sent := more;
    ExtendsFurther(before, twice, remote.snapshots);
    FirstStays(before, twice, remote.snapshots, initial);
    Sends(initial, q, context, a, sent);
    if SendRecovery in sent {
      DueFromRecoverable(before, remote.snapshots, q, a.classification, context, o, current);
    }
    if resumed.Err? { return Err(resumed.error), sent; }
    if Undisturbed(remote.turns) { OneOperator(q, a.classification, remote.account); }
    return Ok(Adopted(a.classification, ConfirmedOperator, resumed.value, true)), sent;
  }

  /** Read the account and have it accepted. */
  method ReadAccepted(remote: Remote, q: Subject) returns (r: Result<(Snapshot, Accepted), Stop>)
    modifies remote
    ensures remote.actions == old(remote.actions) && remote.grants == old(remote.grants)
    ensures remote.snapshots == old(remote.snapshots)
         || exists s :: remote.snapshots == old(remote.snapshots) + [s]
    ensures r.Ok? ==> remote.snapshots == old(remote.snapshots) + [r.value.0] && Validate(r.value.0, q) == Ok(r.value.1)
    ensures r.Ok? ==> ProvisionedAs(r.value.0, r.value.1.classification)
    ensures Undisturbed(remote.turns) ==> remote.account == old(remote.account)
    ensures Undisturbed(remote.turns) && r.Ok? ==> r.value.0 == remote.account
    ensures Effective(remote.turns) && Validate(old(remote.account), q).Ok? ==> r.Ok?
  {
    hide Validate, ProvisionedAs;
    var read := remote.Read();
    if read.Err? { return Err(Unanswered); }
    var accepted := Validate(read.value, q);
    if accepted.Ok? { AcceptedAsRecorded(read.value, q, accepted.value.classification, accepted.value.phase); }
    return if accepted.Ok? then Ok((read.value, accepted.value)) else Err(Refused(accepted.error));
  }

  /** What is accepted was provisioned by the command that the classification names. */
  lemma AcceptedAsRecorded(s: Snapshot, q: Subject, c: Classification, phase: Phase)
    requires Validate(s, q) == Ok(Accepted(c, phase))
    ensures ProvisionedAs(s, c)
  {
    hide Classify, ProvisionedAs, PhaseOf, InBoundary, DisplayNameState;
    AcceptedParts(s, q, c, phase);
    ClassifiedExactlyAsRecorded(s, c);
  }

  lemma ExtendsOnce(before: seq<Snapshot>, after: seq<Snapshot>)
    requires before == after || exists s :: after == before + [s]
    ensures Extends(before, after)
  {}

  lemma ReadTwice(before: seq<Snapshot>, once: seq<Snapshot>, twice: seq<Snapshot>, s: Snapshot)
    requires once == before + [s] && twice == once + [s]
    ensures |twice| == |before| + 2 && twice[|before|] == s && LastRead(twice, s)
  {}

  lemma FirstStays(before: seq<Snapshot>, twice: seq<Snapshot>, after: seq<Snapshot>, s: Snapshot)
    requires |twice| == |before| + 2 && twice[|before|] == s && Extends(twice, after)
    ensures |before| + 2 <= |after| && after[|before|] == s
  {}

  /** The one confirmed account under the email, which has no password and has never signed in, whose names are
      repaired, and whose only membership is in the owner's organization. */
  ghost predicate IsUntouchedAccount(s: Snapshot, q: Subject) {
    && s.auth.matches == 1 && s.auth.email == s.profile.email == q.email
    && s.auth.active && !s.auth.signedIn && s.auth.noPassword
    && s.membership.count == 1 && s.membership.permissions == []
    && s.membership.organizationId == s.organization.id == q.organizationId
    && s.authority.isActiveOwner && s.authority.id == q.invitedBy
  }

  /** The operator by the owner's only waiver, for an adoption of this classification. */
  ghost predicate IsAdoptedOperator(s: Snapshot, q: Subject, c: Classification) {
    && s.auth.confirmed && s.membership.role == "operator"
    && s.auth.displayName == s.profile.displayName == q.displayName && s.auth.userMetadata == Named(q.displayName, true)
    && s.waiver.count == 1 && s.waiver.grantedBy == q.invitedBy && MatchesPriorReason(s.waiver.reason, c)
  }

  /** Whom a recovery can reach. */
  lemma RecoveryTarget(snapshots: seq<Snapshot>, start: nat, q: Subject, context: AuditContext)
    requires start < |snapshots| && RecoveryIsDue(snapshots, start, q, context)
    ensures
      var s := snapshots[|snapshots| - 1];
      IsUntouchedAccount(s, q) && IsAdoptedOperator(s, q, Validate(snapshots[start], q).value.classification)
  {
    hide Validate, IsUntouchedAccount, IsAdoptedOperator, AcceptedAs, SameAccount, Reason;
    OperatorIsTarget(snapshots[|snapshots| - 1], q, Validate(snapshots[start], q).value.classification);
  }

  lemma OperatorIsTarget(s: Snapshot, q: Subject, c: Classification)
    requires AcceptedAs(s, q, c, ConfirmedOperator)
    ensures IsUntouchedAccount(s, q) && IsAdoptedOperator(s, q, c)
  {
    AcceptedParts(s, q, c, ConfirmedOperator);
    hide IsUntouchedAccount, IsAdoptedOperator, AcceptedAs, InBoundary, DisplayNameState, PhaseOf, Classify;
    BoundaryMeans(s, q);
    OperatorMeans(s, q, c);
  }

  lemma BoundaryMeans(s: Snapshot, q: Subject)
    requires InBoundary(s, q)
    ensures IsUntouchedAccount(s, q)
  {
    hide HasExactMarkers;
  }

  lemma OperatorMeans(s: Snapshot, q: Subject, c: Classification)
    requires DisplayNameState(s, q.displayName).Ok?
    requires PhaseOf(s, q, c, DisplayNameState(s, q.displayName).value) == Ok(ConfirmedOperator)
    ensures IsAdoptedOperator(s, q, c)
  {
    MatchingIsReading(s.waiver.reason, c);
    hide MatchesReason, MatchesPriorReason, IsUuid;
  }

  lemma StartsTraced(remote: Remote, o: Origin, q: Subject, c: Classification, reason: string)
    requires AcceptedAs(o.first, q, c, o.start) && o.actions == remote.actions && o.grants == remote.grants
    requires Undisturbed(remote.turns) ==> remote.account == o.first == o.account
    ensures Traced(remote, o, q, c, reason, [], o.start, o.first)
  {
    StartsUnderWay(q, c, reason, o.start, o.first);
    FaithfulReflexive(q, o.account, o.grants);
    hide Validate, Plan, UnderWay, Faithful, Undisturbed;
  }

  lemma StartsUnderWay(q: Subject, c: Classification, reason: string, start: Phase, initial: Snapshot)
    requires AcceptedAs(initial, q, c, start)
    ensures UnderWay(q, c, reason, start, initial, [], start, initial)
  {
    assert start == ConfirmedOperator ==> initial.waiver == initial.waiver;
    hide Validate, Plan;
  }

  lemma Sends(first: Snapshot, q: Subject, context: AuditContext, a: Accepted, sent: seq<Action>)
    requires Validate(first, q) == Ok(a)
    requires sent <= Plan(a.phase, Reason(a.classification, context)) + [SendRecovery]
    ensures RunSends(sent, first, q, context, false)
    ensures sent == Plan(a.phase, Reason(a.classification, context)) + [SendRecovery] ==> RunSends(sent, first, q, context, true)
  {
    hide Validate, Plan, Reason;
  }

  lemma OneOperator(q: Subject, c: Classification, s: Snapshot)
    requires AcceptedAs(s, q, c, ConfirmedOperator)
    ensures Operators(q, s) == 1
  {
    hide Validate;
  }

  lemma AcceptedIs(s: Snapshot, q: Subject, a: Accepted)
    requires Validate(s, q) == Ok(a)
    ensures AcceptedAs(s, q, a.classification, a.phase)
  {
    hide Validate;
  }

  // ---------------------------------------------------------------------------------------------
  // Any number of runs
  // ---------------------------------------------------------------------------------------------

  /** The account and the waivers granted so far, before each of any number of runs and after the last; each run as
      `Adopt` leaves it, however early it stops. */
  ghost predicate SerialRuns(q: Subject, accounts: seq<Snapshot>, grants: seq<nat>) {
    && |accounts| == |grants| > 0
    && forall i :: 0 < i < |accounts| ==> Faithful(q, accounts[i - 1], grants[i - 1], accounts[i], grants[i])
  }

  lemma {:induction false} FaithfulOverRuns(q: Subject, accounts: seq<Snapshot>, grants: seq<nat>, n: nat)
    requires SerialRuns(q, accounts, grants) && n < |accounts|
    ensures Faithful(q, accounts[0], grants[0], accounts[n], grants[n])
  {
    hide Faithful;
    if n == 0 {
      FaithfulReflexive(q, accounts[0], grants[0]);
    } else {
      FaithfulOverRuns(q, accounts, grants, n - 1);
      FaithfulTransitive(q, accounts[0], grants[0], accounts[n - 1], grants[n - 1], accounts[n], grants[n]);
    }
  }

  /** Crash and resume: an accepted account is accepted after every run, with the same classification and in a phase
      that never goes back, and differs from the first only where it may. */
  lemma ResumableThroughout(q: Subject, accounts: seq<Snapshot>, grants: seq<nat>, i: nat, j: nat)
    requires SerialRuns(q, accounts, grants) && i <= j < |accounts| && Validate(accounts[i], q).Ok?
    ensures Validate(accounts[j], q).Ok?
    ensures
      var a, b := Validate(accounts[i], q).value, Validate(accounts[j], q).value;
      a.classification == b.classification && Rank(a.phase) <= Rank(b.phase)
    ensures SameAccount(accounts[i], accounts[j])
  {
    var later, laterGrants := accounts[i..], grants[i..];
    hide Validate, SameAccount;
    assert SerialRuns(q, later, laterGrants) by { hide Faithful; }
    FaithfulOverRuns(q, later, laterGrants, j - i);
  }

  /** Over all runs together at most one waiver is granted, and none once the account is the operator's. */
  lemma WaiverAtMostOnce(q: Subject, accounts: seq<Snapshot>, grants: seq<nat>, n: nat)
    requires SerialRuns(q, accounts, grants) && n < |accounts|
    ensures grants[n] <= grants[0] + 1
    ensures Operators(q, accounts[0]) == 1 ==> grants[n] == grants[0] && accounts[n] == accounts[0]
  {
    FaithfulOverRuns(q, accounts, grants, n);
    hide Validate, SameAccount;
  }

  /** The account can be taken up again where it was left: it is still accepted, with the same classification and no
      lower phase, and differs only where it may. */
  ghost predicate Resumable(q: Subject, before: Snapshot, after: Snapshot) {
    Validate(before, q).Ok? ==>
      && Validate(after, q).Ok?
      && Validate(after, q).value.classification == Validate(before, q).value.classification
      && Rank(Validate(before, q).value.phase) <= Rank(Validate(after, q).value.phase)
      && SameAccount(before, after)
  }

  /** What is proved about runs that follow on one another. */
  ghost predicate KeepsThroughout(q: Subject, accounts: seq<Snapshot>, grants: seq<nat>) {
    && |accounts| == |grants| > 0
    && (forall i, j :: 0 <= i <= j < |accounts| ==> Resumable(q, accounts[i], accounts[j]))
    && (forall j :: 0 <= j < |accounts| ==> grants[j] <= grants[0] + 1)
    && (Operators(q, accounts[0]) == 1 ==> forall j :: 0 <= j < |accounts| ==> accounts[j] == accounts[0] && grants[j] == grants[0])
  }

  lemma SerialKeepsThroughout(q: Subject, accounts: seq<Snapshot>, grants: seq<nat>)
    requires SerialRuns(q, accounts, grants)
    ensures KeepsThroughout(q, accounts, grants)
  {
    assert |accounts| == |grants| > 0;
    hide SerialRuns, Validate, SameAccount, Operators, Resumable;
    forall i, j | 0 <= i <= j < |accounts| ensures Resumable(q, accounts[i], accounts[j]) {
      ResumableBetween(q, accounts, grants, i, j);
    }
    forall j: nat | j < |accounts|
      ensures grants[j] <= grants[0] + 1
      ensures Operators(q, accounts[0]) == 1 ==> accounts[j] == accounts[0] && grants[j] == grants[0]
    {
      WaiverAtMostOnce(q, accounts, grants, j);
    }
  }

  lemma ResumableBetween(q: Subject, accounts: seq<Snapshot>, grants: seq<nat>, i: nat, j: nat)
    requires SerialRuns(q, accounts, grants) && i <= j < |accounts|
    ensures Resumable(q, accounts[i], accounts[j])
  {
    hide SerialRuns, Validate, SameAccount;
    if Validate(accounts[i], q).Ok? { ResumableThroughout(q, accounts, grants, i, j); }
  }

  lemma OneMoreRun(q: Subject, accounts: seq<Snapshot>, grants: seq<nat>, account: Snapshot, granted: nat)
    requires SerialRuns(q, accounts, grants)
    requires Faithful(q, accounts[|accounts| - 1], grants[|grants| - 1], account, granted)
    ensures SerialRuns(q, accounts + [account], grants + [granted])
  {
    hide Faithful;
  }

  /** Run after run on the same systems, each dispatched anew with its own context, and each stopping wherever it does:
      when nobody interferes, the account can always be taken up again, and at most one waiver is granted in all. */
  method AdoptRepeatedly(remote: Remote, q: Subject, contexts: seq<AuditContext>)
    returns (ghost accounts: seq<Snapshot>, ghost grants: seq<nat>)
    requires IsSubject(q) && forall i :: 0 <= i < |contexts| ==> IsAuditContext(contexts[i])
    modifies remote
    ensures |accounts| == |grants| == |contexts| + 1
    ensures accounts[0] == old(remote.account) && grants[0] == old(remote.grants)
    ensures accounts[|contexts|] == remote.account && grants[|contexts|] == remote.grants
    ensures Undisturbed(remote.turns) ==> KeepsThroughout(q, accounts, grants)
  {
    hide Undisturbed, Faithful, IsSubject, IsAuditContext, KeepsThroughout, Effective, RunSends, RecoveryIsDue, Validate, Operators;
    accounts, grants := [remote.account], [remote.grants];
    assert SerialRuns(q, accounts, grants);
    hide SerialRuns;
    for n := 0 to |contexts|
      invariant |accounts| == |grants| == n + 1
      invariant accounts[0] == old(remote.account) && grants[0] == old(remote.grants)
      invariant accounts[n] == remote.account && grants[n] == remote.grants
      invariant Undisturbed(remote.turns) ==> SerialRuns(q, accounts, grants)
    {
      var r, sent := Adopt(remote, q, contexts[n], true);
      if Undisturbed(remote.turns) { OneMoreRun(q, accounts, grants, remote.account, remote.grants); }
      accounts, grants := accounts + [remote.account], grants + [remote.grants];
    }
    if Undisturbed(remote.turns) { SerialKeepsThroughout(q, accounts, grants); }
  }
}
