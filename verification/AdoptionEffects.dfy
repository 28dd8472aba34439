/** What the actions of an adoption do to the account, and what every one of them keeps. */
module AdoptionEffects {
  import opened Text
  import opened AdoptionReason
  import opened JsonValues
  import opened AdoptionSnapshot

  datatype Action = SetDisplayName | ConfirmIdentity | GrantWaiver(reason: string) | SendRecovery

  /** What becomes of a request: nothing, all of it, or a name that reaches Auth while the profile is not synchronised. */
  datatype Outcome = Lost | Partial | Full

  /** One call: what others have made of the account before it, what becomes of the request, and whether a reply
      arrives; with the values that the database chooses. */
  datatype Turn = Turn(drift: seq<Snapshot>, outcome: Outcome, replied: bool, waiverId: string, updatedAt: string)

  function NameSet(s: Snapshot, name: string, synchronised: bool): Snapshot {
    var auth := s.auth.(userMetadata := s.auth.userMetadata["display_name" := Json.Text(name)], displayName := name);
    s.(auth := auth, profile := if synchronised then s.profile.(displayName := name) else s.profile)
  }

  function ConfirmedNow(s: Snapshot): Snapshot {
    s.(auth := s.auth.(confirmed := true, userMetadata := s.auth.userMetadata["email_verified" := Bool(true)]))
  }

  function OneOffWaiver(s: Snapshot, q: Subject, reason: string, id: string): Waiver {
    Waiver(1, id, q.organizationId, s.auth.userId, "active", "workspace_generation", "trainee", "operator", reason,
           q.invitedBy)
  }

  /** The waivers of an operator's account are those that a grant writes. */
  lemma WaiverExactlyAsGranted(w: Waiver, s: Snapshot, q: Subject)
    ensures IsOneOffWaiver(w, s, q) <==> IsUuid(w.id) && w == OneOffWaiver(s, q, w.reason, w.id)
  {
    hide IsUuid;
  }

  function Granted(s: Snapshot, q: Subject, reason: string, t: Turn): Snapshot {
    s.(membership := s.membership.(role := "operator", updatedAt := t.updatedAt),
       waiver := OneOffWaiver(s, q, reason, t.waiverId))
  }

  /** The helper grants only to a confirmed trainee. */
  predicate Grants(s: Snapshot, a: Action, t: Turn) {
    a.GrantWaiver? && t.outcome != Lost && s.membership.role == "trainee" && s.auth.confirmed
  }

  function Effect(s: Snapshot, q: Subject, a: Action, t: Turn): Snapshot {
    match a
    case SetDisplayName => if t.outcome == Lost then s else NameSet(s, q.displayName, t.outcome == Full)
    case ConfirmIdentity => if t.outcome == Lost then s else ConfirmedNow(s)
    case GrantWaiver(reason) => if Grants(s, a, t) then Granted(s, q, reason, t) else s
    case SendRecovery => s
  }

  /** The actions that are still to come from a phase on. */
  function Plan(phase: Phase, reason: string): seq<Action> {
    match phase
    case UnconfirmedTraineeMissingName => [SetDisplayName, ConfirmIdentity, GrantWaiver(reason)]
    case ConfirmedTraineeMissingName => [SetDisplayName, GrantWaiver(reason)]
    case UnconfirmedTrainee => [ConfirmIdentity, GrantWaiver(reason)]
    case ConfirmedTrainee => [GrantWaiver(reason)]
    case ConfirmedOperator => []
  }

  /** How far the saga has come. */
  function Rank(phase: Phase): nat {
    3 - |Plan(phase, "")|
  }

  function NextPhase(phase: Phase): Phase {
    match phase
    case UnconfirmedTraineeMissingName => UnconfirmedTrainee
    case ConfirmedTraineeMissingName => ConfirmedTrainee
    case UnconfirmedTrainee => ConfirmedTrainee
    case _ => ConfirmedOperator
  }

  // ---------------------------------------------------------------------------------------------
  // The frame
  // ---------------------------------------------------------------------------------------------

  /** The later snapshot with the fields that an adoption may change set back. */
  function Restored(before: Snapshot, after: Snapshot): Snapshot {
    after.(
    auth := after.auth.(userMetadata := before.auth.userMetadata, displayName := before.auth.displayName,
                        confirmed := before.auth.confirmed),
    profile := after.profile.(displayName := before.profile.displayName),
    membership := after.membership.(role := before.membership.role, updatedAt := before.membership.updatedAt),
    waiver := before.waiver)
  }

  /** The snapshots differ only in user metadata, display names, confirmation, role and its time, and the waiver. */
  ghost predicate SameAccount(before: Snapshot, after: Snapshot) {
    Restored(before, after) == before
  }

  lemma SameAccountTransitive(a: Snapshot, b: Snapshot, c: Snapshot)
    requires SameAccount(a, b) && SameAccount(b, c)
    ensures SameAccount(a, c)
  {}

  /** Classification and boundary look at none of the fields that change, apart from the role. */
  lemma SameAccountSameBoundary(before: Snapshot, after: Snapshot, q: Subject)
    requires SameAccount(before, after)
    ensures Classify(after) == Classify(before)
    ensures after.membership.role in ["trainee", "operator"] ==> InBoundary(before, q) ==> InBoundary(after, q)
  {
    hide HasExactMarkers, IsLimited, IsInvited;
    assert |before.events| == 1 && |before.receipts| == 1 ==>
        SamePlace(after, before.events[0], before.receipts[0]) == SamePlace(before, before.events[0], before.receipts[0]);
  }

  // ---------------------------------------------------------------------------------------------
  // One action
  // ---------------------------------------------------------------------------------------------

  ghost predicate AcceptedAs(s: Snapshot, q: Subject, c: Classification, phase: Phase) {
    Validate(s, q) == Ok(Accepted(c, phase))
  }

  /** The parts of being accepted. */
  lemma AcceptedParts(s: Snapshot, q: Subject, c: Classification, phase: Phase)
    ensures AcceptedAs(s, q, c, phase) <==>
            && DisplayNameState(s, q.displayName).Ok? && InBoundary(s, q) && Classify(s) == Ok(c)
            && PhaseOf(s, q, c, DisplayNameState(s, q.displayName).value) == Ok(phase)
  {
    hide DisplayNameState, InBoundary, Classify, PhaseOf;
  }

  /** All three names are in place. */
  predicate HasName(s: Snapshot, name: string) {
    s.auth.userMetadata == Named(name, s.auth.confirmed) && s.auth.displayName == name && s.profile.displayName == name
  }

  /** What a phase says about an accepted account: whether it is confirmed, whether its names are in place, whether it is the
      operator's, and then that its one waiver is a granted one for this classification. */
  lemma PhaseMeans(s: Snapshot, q: Subject, c: Classification, phase: Phase)
    requires AcceptedAs(s, q, c, phase)
    ensures s.auth.confirmed <==> phase in [ConfirmedTraineeMissingName, ConfirmedTrainee, ConfirmedOperator]
    ensures HasName(s, q.displayName) <==> phase in [UnconfirmedTrainee, ConfirmedTrainee, ConfirmedOperator]
    ensures s.membership.role == "operator" <==> phase == ConfirmedOperator
    ensures phase != ConfirmedOperator ==> s.membership.role == "trainee" && s.waiver == NO_WAIVER
    ensures phase == ConfirmedOperator ==>
      MatchesReason(s.waiver.reason, c) && s.waiver == OneOffWaiver(s, q, s.waiver.reason, s.waiver.id)
  {
    hide InBoundary, Classify, MatchesReason, IsUuid;
    AcceptedParts(s, q, c, phase);
    assert "trainee" != "operator" by { assert "trainee"[0] == 't' && "operator"[0] == 'o'; }
  }

  predicate MissingName(phase: Phase) {
    phase == UnconfirmedTraineeMissingName || phase == ConfirmedTraineeMissingName
  }

  /** Setting the name never loses the state: it completes the repair, or leaves a phase that repairs it again. */
  lemma NameStates(s: Snapshot, name: string, synchronised: bool)
    requires name != "" && DisplayNameState(s, name).Ok?
    ensures DisplayNameState(NameSet(s, name, true), name) == Ok(Ready)
    ensures DisplayNameState(NameSet(s, name, synchronised), name).Ok?
  {
    var set1 := s.auth.userMetadata["display_name" := Json.Text(name)];
    assert s.auth.userMetadata == Named(name, s.auth.confirmed) ==> set1 == Named(name, s.auth.confirmed);
    assert s.auth.userMetadata == Verification(s.auth.confirmed) ==> set1 == Named(name, s.auth.confirmed);
  }

  lemma NameEffect(s: Snapshot, q: Subject, c: Classification, phase: Phase, synchronised: bool)
    requires IsSubject(q) && AcceptedAs(s, q, c, phase) && MissingName(phase)
    ensures AcceptedAs(NameSet(s, q.displayName, true), q, c, NextPhase(phase))
    ensures AcceptedAs(NameSet(s, q.displayName, synchronised), q, c, NextPhase(phase))
         || AcceptedAs(NameSet(s, q.displayName, synchronised), q, c, phase)
  {
    AcceptedParts(s, q, c, phase);
    NameStates(s, q.displayName, synchronised);
    hide DisplayNameState, InBoundary, Classify, AcceptedAs;
    NameEffectPhase(s, q, c, phase, true);
    NameEffectPhase(s, q, c, phase, synchronised);
  }

  lemma NameEffectPhase(s: Snapshot, q: Subject, c: Classification, phase: Phase, synchronised: bool)
    requires AcceptedAs(s, q, c, phase) && MissingName(phase)
    requires DisplayNameState(NameSet(s, q.displayName, synchronised), q.displayName).Ok?
    ensures
      var after := NameSet(s, q.displayName, synchronised);
      AcceptedAs(after, q, c, if DisplayNameState(after, q.displayName).value == Ready then NextPhase(phase) else phase)
  {
    var after := NameSet(s, q.displayName, synchronised);
    AcceptedParts(s, q, c, phase);
    AcceptedParts(after, q, c, phase);
    AcceptedParts(after, q, c, NextPhase(phase));
    assert SameAccount(s, after);
    hide DisplayNameState, AcceptedAs, MatchesReason, InBoundary, Classify;
    SameAccountSameBoundary(s, after, q);
  }

  /** The confirmation marks the metadata, which named the subject and nothing else. */
  lemma ConfirmedName(s: Snapshot, q: Subject, c: Classification)
    requires DisplayNameState(s, q.displayName).Ok?
    requires PhaseOf(s, q, c, DisplayNameState(s, q.displayName).value) == Ok(UnconfirmedTrainee)
    ensures ConfirmedNow(s).auth.userMetadata == Named(q.displayName, true)
  {
    hide MatchesReason;
    assert s.auth.userMetadata == Named(q.displayName, false);
  }

  lemma ConfirmEffect(s: Snapshot, q: Subject, c: Classification)
    requires AcceptedAs(s, q, c, UnconfirmedTrainee)
    ensures AcceptedAs(ConfirmedNow(s), q, c, ConfirmedTrainee)
    ensures ConfirmedNow(s).auth.userMetadata == Named(q.displayName, true)
  {
    var after := ConfirmedNow(s);
    AcceptedParts(s, q, c, UnconfirmedTrainee);
    AcceptedParts(after, q, c, ConfirmedTrainee);
    assert SameAccount(s, after);
    hide AcceptedAs, MatchesReason, InBoundary, Classify;
    SameAccountSameBoundary(s, after, q);
    ConfirmedName(s, q, c);
  }

  lemma GrantEffect(s: Snapshot, q: Subject, c: Classification, x: AuditContext, t: Turn)
    requires AcceptedAs(s, q, c, ConfirmedTrainee) && IsAuditContext(x) && IsUuid(t.waiverId)
    ensures AcceptedAs(Granted(s, q, Reason(c, x), t), q, c, ConfirmedOperator)
  {
    var reason := Reason(c, x);
    var after := Granted(s, q, reason, t);
    AcceptedParts(s, q, c, ConfirmedTrainee);
    AcceptedParts(after, q, c, ConfirmedOperator);
    PrintedMatches(c, x);
    GrantKeepsRest(s, q, reason, t);
    GrantPhase(s, q, c, reason, t);
    assert after.membership.role == "operator";
    hide *;
    SameAccountSameBoundary(s, after, q);
  }

  /** The phase of a granted waiver, seen by itself. */
  lemma GrantPhase(s: Snapshot, q: Subject, c: Classification, reason: string, t: Turn)
    requires MatchesReason(reason, c) && IsUuid(t.waiverId) && DisplayNameState(s, q.displayName).Ok?
    requires PhaseOf(s, q, c, DisplayNameState(s, q.displayName).value) == Ok(ConfirmedTrainee)
    ensures PhaseOf(Granted(s, q, reason, t), q, c, DisplayNameState(s, q.displayName).value) == Ok(ConfirmedOperator)
  {
    hide DisplayNameState, MatchesReason, IsUuid;
  }

  lemma PrintedMatches(c: Classification, x: AuditContext)
    requires IsAuditContext(x)
    ensures MatchesReason(Reason(c, x), c)
  {
    hide *;
    PrintedIsMatched(c, x, c);
    MatchingIsReading(Reason(c, x), c);
  }

  lemma GrantKeepsRest(s: Snapshot, q: Subject, reason: string, t: Turn)
    ensures SameAccount(s, Granted(s, q, reason, t))
    ensures DisplayNameState(Granted(s, q, reason, t), q.displayName) == DisplayNameState(s, q.displayName)
  {}

  // ---------------------------------------------------------------------------------------------
  // What runs keep
  // ---------------------------------------------------------------------------------------------

  /** An accepted account stays accepted with its classification, its phase never goes back, and once it is the
      operator's it does not change. What is not accepted is left alone. */
  ghost predicate Kept(q: Subject, before: Snapshot, after: Snapshot) {
    match Validate(before, q)
    case Err(_) => after == before
    case Ok(a) =>
      && Validate(after, q).Ok? && Validate(after, q).value.classification == a.classification
      && Rank(Validate(after, q).value.phase) >= Rank(a.phase)
      && (a.phase == ConfirmedOperator ==> after == before)
      && SameAccount(before, after)
  }

  lemma KeptReflexive(q: Subject, s: Snapshot)
    ensures Kept(q, s, s)
  {
    hide Validate;
  }

  lemma KeptTransitive(q: Subject, a: Snapshot, b: Snapshot, c: Snapshot)
    requires Kept(q, a, b) && Kept(q, b, c)
    ensures Kept(q, a, c)
  {
    if Validate(a, q).Ok? { SameAccountTransitive(a, b, c); }
    hide Validate, SameAccount;
  }

  /** 1 if the account is the operator's. */
  ghost function Operators(q: Subject, s: Snapshot): nat {
    if Validate(s, q).Ok? && Validate(s, q).value.phase == ConfirmedOperator then 1 else 0
  }

  /** The action that a phase calls for keeps the account whatever becomes of the request, and leads to the next
      phase when it takes effect. */
  lemma ActionKeeps(s: Snapshot, q: Subject, c: Classification, phase: Phase, x: AuditContext, t: Turn)
    requires IsSubject(q) && IsAuditContext(x) && IsUuid(t.waiverId)
    requires AcceptedAs(s, q, c, phase) && phase != ConfirmedOperator
    ensures
      var a := Plan(phase, Reason(c, x))[0];
      && Kept(q, s, Effect(s, q, a, t))
      && (t.outcome == Full ==> AcceptedAs(Effect(s, q, a, t), q, c, NextPhase(phase)))
      && Operators(q, Effect(s, q, a, t)) == (if Grants(s, a, t) then 1 else 0)
  {
    hide Validate, IsAuditContext, IsUuid, Reason;
    if phase == ConfirmedTrainee {
      GrantEffect(s, q, c, x, t);
      TraineeParts(s, q, c);
    } else if phase == UnconfirmedTrainee {
      ConfirmEffect(s, q, c);
    } else {
      NameEffect(s, q, c, phase, t.outcome == Full);
    }
  }

  lemma TraineeParts(s: Snapshot, q: Subject, c: Classification)
    requires AcceptedAs(s, q, c, ConfirmedTrainee)
    ensures s.membership.role == "trainee" && s.auth.confirmed
  {
    AcceptedParts(s, q, c, ConfirmedTrainee);
    hide InBoundary, Classify, MatchesReason;
  }
}
