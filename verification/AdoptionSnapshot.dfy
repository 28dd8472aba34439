/** The snapshot that an adoption reads, and what it decides about it: the state of the display names, the provenance,
    and the phase of the saga. */
module AdoptionSnapshot {
  import opened Text
  import opened AdoptionReason
  import opened JsonValues

  datatype Auth = Auth(matches: int, userId: string, email: string, createdAt: int, inSourceWindow: bool,
                       confirmed: bool, active: bool, signedIn: bool, noPassword: bool, appMetadata: Document,
                       userMetadata: Document, displayName: string, provider: string, providers: seq<string>)

  datatype Profile = Profile(id: string, email: string, displayName: string, status: string)

  datatype Organization = Organization(id: string, slug: string, status: string)

  datatype Authority = Authority(id: string, email: string, authEmail: string, isActiveOwner: bool)

  datatype Membership = Membership(id: string, organizationId: string, profileId: string, role: string, status: string,
                                   permissions: seq<Json>, createdAt: string, updatedAt: string, count: int)

  datatype Waiver = Waiver(count: int, id: string, organizationId: string, profileId: string, status: string,
                           scope: string, previousRole: string, grantedRole: string, reason: string, grantedBy: string)

  datatype Training = Training(attempts: int, certifications: int, projectMemberships: int)

  datatype Event = Event(id: string, organizationId: string, profileId: string, name: string, source: string,
                         entityType: string, entityId: string, properties: Document, idempotencyKey: string,
                         occurredAt: string)

  datatype Receipt = Receipt(id: string, organizationId: string, actorId: string, command: string,
                             idempotencyKey: string, result: Document, createdAt: string)

  datatype Snapshot = Snapshot(auth: Auth, profile: Profile, organization: Organization, authority: Authority,
                               membership: Membership, waiver: Waiver, training: Training, events: seq<Event>,
                               receipts: seq<Receipt>)

  /** Whom the run is about, under whose authority; all as the validators of the inputs return them. */
  datatype Subject = Subject(email: string, displayName: string, ownerEmail: string, organizationId: string,
                             invitedBy: string)

  /** A display name is not empty, or the run stops before it reads anything. */
  predicate IsSubject(q: Subject) {
    q.displayName != ""
  }

  datatype Refusal = InvalidDisplayName | OutsideBoundary | InvalidProvenance | NotResumable

  // ---------------------------------------------------------------------------------------------
  // Display names
  // ---------------------------------------------------------------------------------------------

  datatype NameState = NeedsAuthName | RetryProfileSync | Ready

  function Verification(confirmed: bool): Document {
    if confirmed then map["email_verified" := Bool(true)] else map[]
  }

  function Named(displayName: string, confirmed: bool): Document {
    map["display_name" := Json.Text(displayName)] + Verification(confirmed)
  }

  function DisplayNameState(s: Snapshot, displayName: string): Result<NameState, Refusal> {
    var named := Named(displayName, s.auth.confirmed);
    if s.auth.userMetadata == named && s.auth.displayName == displayName && s.profile.displayName == displayName then
      Ok(Ready)
    else if s.auth.userMetadata == Verification(s.auth.confirmed) && s.auth.displayName == ""
            && (s.profile.displayName == "" || s.profile.displayName == displayName) then
      Ok(NeedsAuthName)
    else if s.auth.userMetadata == named && s.auth.displayName == displayName && s.profile.displayName == "" then
      Ok(RetryProfileSync)
    else
      Err(InvalidDisplayName)
  }

  // ---------------------------------------------------------------------------------------------
  // Provenance
  // ---------------------------------------------------------------------------------------------

  predicate SamePlace(s: Snapshot, e: Event, r: Receipt) {
    && e.organizationId == s.organization.id && e.profileId == s.authority.id && e.source == "system"
    && e.entityType == "membership" && e.entityId == s.membership.id
    && r.organizationId == s.organization.id && r.actorId == s.authority.id
    && Has(e.properties, "target_user_id", Json.Text(s.auth.userId)) && Has(e.properties, "role", Json.Text("trainee"))
    && Has(r.result, "ok", Bool(true)) && Has(r.result, "organization_id", Json.Text(s.organization.id))
    && Has(r.result, "user_id", Json.Text(s.auth.userId)) && Has(r.result, "membership_id", Json.Text(s.membership.id))
    && Has(r.result, "role", Json.Text("trainee")) && Has(r.result, "status", Json.Text("active"))
  }

  predicate IsLimited(e: Event, r: Receipt) {
    && r.command == "system_provision_limited_member" && e.idempotencyKey == r.idempotencyKey
    && Has(e.properties, "already_active", Bool(false)) && Has(r.result, "already_active", Bool(false))
  }

  predicate IsInvited(e: Event, r: Receipt) {
    && r.command == "system_provision_invited_member" && e.idempotencyKey == "system-invite:" + r.idempotencyKey
    && "already_active" !in e.properties && "already_active" !in r.result
  }

  function Classify(s: Snapshot): Result<Classification, Refusal> {
    if s.events == [] && s.receipts == [] then Ok(NoProvenance)
    else if |s.events| != 1 || |s.receipts| != 1 || !SamePlace(s, s.events[0], s.receipts[0]) then Err(InvalidProvenance)
    else if s.events[0].name == "limited_member_provisioned" && IsLimited(s.events[0], s.receipts[0]) then
      Ok(LimitedProvenance)
    else if s.events[0].name == "member_invited_provisioned" && IsInvited(s.events[0], s.receipts[0]) then
      Ok(InvitedProvenance)
    else Err(InvalidProvenance)
  }

  // ---------------------------------------------------------------------------------------------
  // The boundary
  // ---------------------------------------------------------------------------------------------

  const PROVISIONED := "contentengine_github_member_provisioned"
  const PASSWORD_CHANGE_REQUIRED := "contentengine_password_change_required"

  predicate HasExactMarkers(d: Document) {
    && d.Keys == {"provider", "providers", PROVISIONED, PASSWORD_CHANGE_REQUIRED}
    && Has(d, PROVISIONED, Bool(true)) && Has(d, PASSWORD_CHANGE_REQUIRED, Bool(true))
  }

  /** 2026-08-11T19:12:27Z and four seconds later, in microseconds since 1970. */
  const CREATED_AFTER := 1786475547000000
  const CREATED_BEFORE := 1786475551000000

  predicate SoundAccount(s: Snapshot, q: Subject) {
    && s.auth.matches == 1 && s.auth.email == q.email && s.auth.inSourceWindow
    && CREATED_AFTER <= s.auth.createdAt < CREATED_BEFORE
    && s.auth.active && !s.auth.signedIn && s.auth.noPassword && HasExactMarkers(s.auth.appMetadata)
    && s.auth.provider == "email" && s.auth.providers == ["email"]
    && s.profile.id == s.auth.userId && s.profile.email == q.email && s.profile.status == "active"
  }

  predicate SoundOrganization(s: Snapshot, q: Subject) {
    && s.organization.id == q.organizationId && s.organization.slug == "altea-content-factory"
    && s.organization.status == "active"
    && s.authority.id == q.invitedBy && s.authority.email == q.ownerEmail && s.authority.authEmail == q.ownerEmail
    && s.authority.isActiveOwner && q.ownerEmail != q.email
  }

  predicate SoundMembership(s: Snapshot, q: Subject) {
    && s.membership.organizationId == q.organizationId && s.membership.profileId == s.auth.userId
    && (s.membership.role == "trainee" || s.membership.role == "operator") && s.membership.status == "active"
    && s.membership.permissions == [] && s.membership.count == 1
    && s.training == Training(0, 0, 0)
  }

  predicate InBoundary(s: Snapshot, q: Subject) {
    SoundAccount(s, q) && SoundOrganization(s, q) && SoundMembership(s, q)
  }

  /** The snapshot with every field that the boundary fixes set to what it has to be. */
  function Fixed(s: Snapshot, q: Subject): Snapshot {
    s.(auth := s.auth.(matches := 1, email := q.email, inSourceWindow := true, active := true, signedIn := false,
                       noPassword := true, provider := "email", providers := ["email"]),
       profile := s.profile.(id := s.auth.userId, email := q.email, status := "active"),
       organization := Organization(q.organizationId, "altea-content-factory", "active"),
       authority := Authority(q.invitedBy, q.ownerEmail, q.ownerEmail, true),
       membership := s.membership.(organizationId := q.organizationId, profileId := s.auth.userId, status := "active",
                                   permissions := [], count := 1),
       training := Training(0, 0, 0))
  }

  /** The metadata of a provisioned identity: two entries of Auth's own, the mark of the provisioning and the one that asks
      for a password change, and nothing else. */
  ghost predicate AreMarked(d: Document) {
    exists provider, providers ::
      d == map["provider" := provider, "providers" := providers, PROVISIONED := Bool(true), PASSWORD_CHANGE_REQUIRED := Bool(true)]
  }

  lemma MarkedExactly(d: Document)
    ensures HasExactMarkers(d) <==> AreMarked(d)
  {
    MarkersDiffer();
    hide PROVISIONED, PASSWORD_CHANGE_REQUIRED;
    if HasExactMarkers(d) {
      assert d == map["provider" := d["provider"], "providers" := d["providers"], PROVISIONED := Bool(true),
                      PASSWORD_CHANGE_REQUIRED := Bool(true)];
    }
  }

  lemma MarkersDiffer()
    ensures PROVISIONED != PASSWORD_CHANGE_REQUIRED && PROVISIONED !in {"provider", "providers"}
    ensures PASSWORD_CHANGE_REQUIRED !in {"provider", "providers"} && "provider" != "providers"
  {
    assert |PROVISIONED| > 9 && |PASSWORD_CHANGE_REQUIRED| > 9 && |PROVISIONED| != |PASSWORD_CHANGE_REQUIRED|;
    assert |"provider"| == 8 && |"providers"| == 9;
  }

  /** An account is within the boundary exactly when fixing those fields changes nothing, it was created in the window and
      marked by the provisioning, it is a trainee's or an operator's, and it is not the owner's own. */
  lemma BoundaryExactly(s: Snapshot, q: Subject)
    ensures InBoundary(s, q) <==>
      && s == Fixed(s, q) && 1786475547000000 <= s.auth.createdAt < 1786475551000000 && AreMarked(s.auth.appMetadata)
      && s.membership.role in ["trainee", "operator"] && q.ownerEmail != q.email
  {
    MarkedExactly(s.auth.appMetadata);
    hide HasExactMarkers, AreMarked;
  }

  // ---------------------------------------------------------------------------------------------
  // Phases
  // ---------------------------------------------------------------------------------------------

  datatype Phase =
    | UnconfirmedTraineeMissingName
    | ConfirmedTraineeMissingName
    | UnconfirmedTrainee
    | ConfirmedTrainee
    | ConfirmedOperator

  const NO_WAIVER := Waiver(0, "", "", "", "", "", "", "", "", "")

  /** The canonical text of a UUID, as the database prints it. */
  predicate IsUuid(s: string) {
    |s| == 36 && forall i :: 0 <= i < 36 ==> if i == 8 || i == 13 || i == 18 || i == 23 then s[i] == '-' else IsHex(s[i])
  }

  predicate IsOneOffWaiver(w: Waiver, s: Snapshot, q: Subject) {
    && w.count == 1 && IsUuid(w.id) && w.organizationId == q.organizationId && w.profileId == s.auth.userId
    && w.status == "active" && w.scope == "workspace_generation" && w.previousRole == "trainee"
    && w.grantedRole == "operator" && w.grantedBy == q.invitedBy
  }

  predicate IsOperator(s: Snapshot, q: Subject, c: Classification, names: NameState) {
    && s.auth.confirmed && names == Ready && s.membership.role == "operator"
    && IsOneOffWaiver(s.waiver, s, q) && MatchesReason(s.waiver.reason, c)
  }

  function PhaseOf(s: Snapshot, q: Subject, c: Classification, names: NameState): Result<Phase, Refusal> {
    if s.membership.role == "trainee" && s.waiver == NO_WAIVER then
      Ok(if names != Ready then (if s.auth.confirmed then ConfirmedTraineeMissingName else UnconfirmedTraineeMissingName)
         else if s.auth.confirmed then ConfirmedTrainee else UnconfirmedTrainee)
    else if IsOperator(s, q, c, names) then Ok(ConfirmedOperator)
    else Err(NotResumable)
  }

  datatype Accepted = Accepted(classification: Classification, phase: Phase)

  function Validate(s: Snapshot, q: Subject): Result<Accepted, Refusal> {
    var names := DisplayNameState(s, q.displayName);
    if names.Err? then Err(names.error)
    else if !InBoundary(s, q) then Err(OutsideBoundary)
    else
      var c := Classify(s);
      if c.Err? then Err(c.error)
      else
        var phase := PhaseOf(s, q, c.value, names.value);
        if phase.Err? then Err(phase.error) else Ok(Accepted(c.value, phase.value))
  }
}
