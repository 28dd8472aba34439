/** Provisioning the first owner in the service's own tables, inside one transaction that holds the bootstrap lock. */
module CloudBootstrap {
  import opened Text

  datatype Organization = Organization(id: int, name: string, slug: string, status: string)

  datatype Profile = Profile(id: int, providerId: string, email: string, displayName: string, status: string, active: bool)

  datatype Membership = Membership(id: int, organizationId: int, profileId: int, role: string, status: string)

  datatype Tables = Tables(organizations: seq<Organization>, profiles: seq<Profile>, memberships: seq<Membership>)

  datatype Error =
    | OrganizationConflict
    | IdentityConflict
    | EmailConflict
    | MembershipConflict
    | ProviderConflict
    | ProviderUnavailable

  /** The arguments as the validators return them: the email is stripped and in lower case. */
  datatype Arguments = Arguments(email: string, displayName: string, name: string, slug: string)

  // ---------------------------------------------------------------------------------------------
  // Queries
  // ---------------------------------------------------------------------------------------------

  function WithSlug(rows: seq<Organization>, slug: string): (r: seq<Organization>)
    ensures forall o :: o in r <==> o in rows && o.slug == slug
  {
    if rows == [] then [] else (if rows[0].slug == slug then [rows[0]] else []) + WithSlug(rows[1..], slug)
  }

  function WithEmail(rows: seq<Profile>, email: string): (r: seq<Profile>)
    ensures forall p :: p in r <==> p in rows && Casefold(p.email) == email
  {
    if rows == [] then [] else (if Casefold(rows[0].email) == email then [rows[0]] else []) + WithEmail(rows[1..], email)
  }

  function WithProvider(rows: seq<Profile>, providerId: string): (r: seq<Profile>)
    ensures forall p :: p in r <==> p in rows && p.providerId == providerId
  {
    if rows == [] then []
    else (if rows[0].providerId == providerId then [rows[0]] else []) + WithProvider(rows[1..], providerId)
  }

  function Of(rows: seq<Membership>, organizationId: int, profileId: int): (r: seq<Membership>)
    ensures forall m :: m in r <==> m in rows && m.organizationId == organizationId && m.profileId == profileId
  {
    if rows == [] then []
    else (if rows[0].organizationId == organizationId && rows[0].profileId == profileId then [rows[0]] else [])
         + Of(rows[1..], organizationId, profileId)
  }

  /** The profile belongs to another organization. */
  predicate HasForeign(rows: seq<Membership>, profileId: int, organization: Option<Organization>) {
    exists m :: m in rows && m.profileId == profileId && (organization.Some? ==> m.organizationId != organization.value.id)
  }

  // ---------------------------------------------------------------------------------------------
  // The preflight
  // ---------------------------------------------------------------------------------------------

  /** What is there already of the organization, the owner's profile and the membership between them. */
  datatype Existing = Existing(organization: Option<Organization>, profile: Option<Profile>, membership: Option<Membership>)

  predicate IsComplete(x: Existing) {
    x.organization.Some? && x.profile.Some? && x.membership.Some?
  }

  function FindOrganization(t: Tables, a: Arguments): Result<Option<Organization>, Error> {
    var found := WithSlug(t.organizations, a.slug);
    if |found| > 1 then Err(OrganizationConflict)
    else if found == [] then Ok(None)
    else if found[0].name != a.name || found[0].status != "active" then Err(OrganizationConflict)
    else Ok(Some(found[0]))
  }

  function FindProfile(t: Tables, a: Arguments): Result<Option<Profile>, Error> {
    var found := WithEmail(t.profiles, a.email);
    if |found| > 1 then Err(IdentityConflict)
    else if found == [] then Ok(None)
    else if !found[0].active || found[0].status != "active" then Err(EmailConflict)
    else Ok(Some(found[0]))
  }

  function FindMembership(t: Tables, o: Option<Organization>, p: Option<Profile>): Result<Option<Membership>, Error> {
    if p.Some? && HasForeign(t.memberships, p.value.id, o) then Err(MembershipConflict)
    else
      var found := if o.Some? && p.Some? then Of(t.memberships, o.value.id, p.value.id) else [];
      if |found| > 1 then Err(MembershipConflict)
      else if found == [] then Ok(None)
      else if found[0].role != "owner" || found[0].status != "active" then Err(MembershipConflict)
      else Ok(Some(found[0]))
  }

  function Count<T>(o: Option<T>): nat {
    if o.Some? then 1 else 0
  }

  /** Where anything is missing, nothing else may be there. */
  function Preflight(t: Tables, a: Arguments): Result<Existing, Error> {
    var o := FindOrganization(t, a);
    if o.Err? then Err(o.error) else
    var p := FindProfile(t, a);
    if p.Err? then Err(p.error) else
    var m := FindMembership(t, o.value, p.value);
    if m.Err? then Err(m.error) else
    var x := Existing(o.value, p.value, m.value);
    if IsComplete(x) then Ok(x)
    else if |t.organizations| != Count(x.organization) then Err(OrganizationConflict)
    else if |t.profiles| != Count(x.profile) then Err(IdentityConflict)
    else if |t.memberships| != 0 then Err(MembershipConflict)
    else Ok(x)
  }

  // ---------------------------------------------------------------------------------------------
  // Provisioning
  // ---------------------------------------------------------------------------------------------

  datatype Status = Created | Completed | Unchanged

  datatype Provisioned = Provisioned(status: Status, organizationId: int, profileId: int, membershipId: int)

  /** The keys that the database would give to new rows. */
  datatype Keys = Keys(organization: int, profile: int, membership: int)

  function Replaced(rows: seq<Profile>, stale: Profile, current: Profile): (r: seq<Profile>)
    ensures |r| == |rows|
    ensures forall i :: 0 <= i < |rows| ==> r[i] == if rows[i] == stale then current else rows[i]
  {
    if rows == [] then [] else [if rows[0] == stale then current else rows[0]] + Replaced(rows[1..], stale, current)
  }

  function OrganizationOf(x: Existing, a: Arguments, keys: Keys): Organization {
    if x.organization.Some? then x.organization.value else Organization(keys.organization, a.name, a.slug, "active")
  }

  function ProfileOf(x: Existing, a: Arguments, providerId: string, keys: Keys): Profile {
    if x.profile.Some? then x.profile.value.(email := a.email, displayName := a.displayName)
    else Profile(keys.profile, providerId, a.email, a.displayName, "active", true)
  }

  function MembershipOf(x: Existing, o: Organization, p: Profile, keys: Keys): Membership {
    if x.membership.Some? then x.membership.value else Membership(keys.membership, o.id, p.id, "owner", "active")
  }

  /** The provider's identity is the one of the profile, or of none. */
  predicate IdentityFits(t: Tables, x: Existing, providerId: string) {
    if x.profile.Some? then x.profile.value.providerId == providerId else WithProvider(t.profiles, providerId) == []
  }

  function StatusOf(x: Existing): Status {
    if IsComplete(x) then Unchanged
    else if x.organization.None? && x.profile.None? && x.membership.None? then Created
    else Completed
  }

  /** The tables with what was missing, and with the profile brought up to date. */
  function Completing(t: Tables, x: Existing, a: Arguments, providerId: string, keys: Keys): Tables {
    var o, p := OrganizationOf(x, a, keys), ProfileOf(x, a, providerId, keys);
    Tables(if x.organization.Some? then t.organizations else t.organizations + [o],
           if x.profile.Some? then Replaced(t.profiles, x.profile.value, p) else t.profiles + [p],
           if x.membership.Some? then t.memberships else t.memberships + [MembershipOf(x, o, p, keys)])
  }

  function ResultOf(x: Existing, a: Arguments, providerId: string, keys: Keys): Provisioned {
    var o, p := OrganizationOf(x, a, keys), ProfileOf(x, a, providerId, keys);
    Provisioned(StatusOf(x), o.id, p.id, MembershipOf(x, o, p, keys).id)
  }

  /** What a run commits for a provider identity, over the tables of its second preflight. */
  ghost predicate Commits(t: Tables, a: Arguments, providerId: string, keys: Keys, after: Tables, r: Provisioned) {
    && Preflight(t, a).Ok?
    && var x := Preflight(t, a).value;
       IdentityFits(t, x, providerId)
       && after == Completing(t, x, a, providerId, keys) && r == ResultOf(x, a, providerId, keys)
  }

  /** A user as the provider has it, with its email stripped and in lower case. */
  datatype User = User(id: string, email: string)

  predicate IsProviderId(id: string) {
    0 < |id| <= 255 && forall i :: 0 <= i < |id| ==> '!' <= id[i] <= '~'
  }

  /** What the provider answers: whether it answers at all, whom it has under the email, whom it would invite. */
  datatype Provider = Provider(available: bool, found: Option<User>, invited: User)

  /** The user that the provider has, or would invite. */
  function UserOf(provider: Provider): User {
    if provider.found.Some? then provider.found.value else provider.invited
  }

  /** When a run succeeds: both preflights pass, the provider answers with a proper user under the email, and that user is
      the one of the profile, or new where there is no profile. */
  predicate Succeeds(before: Tables, meanwhile: Tables, a: Arguments, provider: Provider) {
    && provider.available && Preflight(before, a).Ok? && Preflight(meanwhile, a).Ok?
    && (provider.found.None? ==> Preflight(before, a).value.profile.None?)
    && UserOf(provider).email == a.email && IsProviderId(UserOf(provider).id)
    && IdentityFits(meanwhile, Preflight(meanwhile, a).value, UserOf(provider).id)
  }

  class Session {
    var tables: Tables

    constructor (tables: Tables)
      ensures this.tables == tables
    {
      this.tables := tables;
    }
  }

  /** The transaction. `meanwhile` is what others, who do not take the lock, have made of the tables by the time of the
      second preflight. Whatever fails rolls back. The last conflict that the provisioning looks for, a membership of other
      rows or another role, cannot occur. */
  method BootstrapCloudOwner(db: Session, a: Arguments, provider: Provider, meanwhile: Tables, keys: Keys)
    returns (r: Result<(Provisioned, bool), Error>)
    modifies db
    ensures r.Err? ==> db.tables == old(db.tables) || db.tables == meanwhile
    ensures r.Ok? <==> Succeeds(old(db.tables), meanwhile, a, provider)
    ensures r.Ok? ==>
      && provider.available && Preflight(old(db.tables), a).Ok?
      && r.value.1 == provider.found.None?
      && var user := if provider.found.Some? then provider.found.value else provider.invited;
         user.email == a.email && IsProviderId(user.id) && Commits(meanwhile, a, user.id, keys, db.tables, r.value.0)
  {
    hide FindOrganization, FindProfile, FindMembership, WithProvider;
    var first := Preflight(db.tables, a);
    if first.Err? { return Err(first.error); }
    if !provider.available { return Err(ProviderUnavailable); }
    if provider.found.None? && first.value.profile.Some? { return Err(ProviderConflict); }
    var user := if provider.found.Some? then provider.found.value else provider.invited;
    if user.email != a.email || !IsProviderId(user.id) { return Err(ProviderConflict); }

    db.tables := meanwhile;
    var second := Preflight(db.tables, a);
    if second.Err? { return Err(second.error); }
    var x := second.value;
    if !IdentityFits(db.tables, x, user.id) { return Err(IdentityConflict); }
    if x.membership.Some? { FoundMembershipFits(db.tables, a, x); }

    var created := 0;
    var organization, profile, membership;
    if x.organization.None? {
      organization := Organization(keys.organization, a.name, a.slug, "active");
      db.tables := db.tables.(organizations := db.tables.organizations + [organization]);
      created := created + 1;
    } else {
      organization := x.organization.value;
    }
    if x.profile.None? {
      profile := Profile(keys.profile, user.id, a.email, a.displayName, "active", true);
      db.tables := db.tables.(profiles := db.tables.profiles + [profile]);
      created := created + 1;
    } else {
      profile := x.profile.value.(email := a.email, displayName := a.displayName);
      db.tables := db.tables.(profiles := Replaced(db.tables.profiles, x.profile.value, profile));
    }
    if x.membership.None? {
      membership := Membership(keys.membership, organization.id, profile.id, "owner", "active");
      db.tables := db.tables.(memberships := db.tables.memberships + [membership]);
      created := created + 1;
    } else {
      membership := x.membership.value;
      if membership.organizationId != organization.id || membership.profileId != profile.id
         || membership.role != "owner" || membership.status != "active" {
        assert false;
      }
    }
    var status := if created == 3 then Created else if created > 0 then Completed else Unchanged;
    return Ok((Provisioned(status, organization.id, profile.id, membership.id), provider.found.None?));
  }

  /** A membership that the preflight lets pass is the owner's in the organization, between the rows that were found. */
  lemma FoundMembershipFits(t: Tables, a: Arguments, x: Existing)
    requires Preflight(t, a) == Ok(x) && x.membership.Some?
    ensures IsComplete(x)
    ensures x.membership.value.organizationId == x.organization.value.id
    ensures x.membership.value.profileId == x.profile.value.id
    ensures x.membership.value.role == "owner" && x.membership.value.status == "active"
  {
  }

  /** On an empty database, any proper user of the provider's succeeds, found or invited. */
  lemma EmptySucceeds(a: Arguments, provider: Provider)
    requires provider.available && UserOf(provider).email == a.email && IsProviderId(UserOf(provider).id)
    ensures Succeeds(Tables([], [], []), Tables([], [], []), a, provider)
  {
    var empty := Tables([], [], []);
    assert FindOrganization(empty, a) == Ok(None) && FindProfile(empty, a) == Ok(None);
    assert FindMembership(empty, None, None) == Ok(None);
  }

  // ---------------------------------------------------------------------------------------------
  // What committed runs leave
  // ---------------------------------------------------------------------------------------------

  /** The email argument is in lower case. */
  predicate IsArguments(a: Arguments) {
    Casefold(a.email) == a.email
  }

  /** The owner's rows, and no others. */
  ghost predicate OnlyTheOwner(t: Tables, a: Arguments, providerId: string, r: Provisioned) {
    && |t.organizations| == |t.profiles| == |t.memberships| == 1
    && t.organizations[0] == Organization(r.organizationId, a.name, a.slug, "active")
    && t.profiles[0] == Profile(r.profileId, providerId, a.email, a.displayName, "active", true)
    && t.memberships[0] == Membership(r.membershipId, r.organizationId, r.profileId, "owner", "active")
  }

  lemma FoundOrganization(t: Tables, a: Arguments)
    requires FindOrganization(t, a).Ok?
    ensures
      var o := FindOrganization(t, a).value;
      o.Some? ==> o.value in t.organizations && o.value == Organization(o.value.id, a.name, a.slug, "active")
  {}

  lemma FoundProfile(t: Tables, a: Arguments)
    requires FindProfile(t, a).Ok?
    ensures
      var p := FindProfile(t, a).value;
      p.Some? ==> p.value in t.profiles && p.value.active && p.value.status == "active"
  {}

  /** What the preflight lets pass incomplete is alone in its tables. */
  lemma IncompleteIsAlone(t: Tables, a: Arguments, x: Existing)
    requires Preflight(t, a) == Ok(x) && !IsComplete(x)
    ensures t.organizations == (if x.organization.Some? then [x.organization.value] else [])
    ensures t.profiles == (if x.profile.Some? then [x.profile.value] else [])
    ensures t.memberships == [] && x.membership.None?
  {
    FoundOrganization(t, a);
    FoundProfile(t, a);
    FoundNothing(t, x);
    hide FindOrganization, FindProfile;
  }

  lemma FoundNothing(t: Tables, x: Existing)
    requires FindMembership(t, x.organization, x.profile) == Ok(x.membership) && t.memberships == []
    ensures x.membership.None?
  {}

  /** From an incomplete start, a committed run leaves exactly one organization, profile and owner membership. */
  lemma IncompleteLeavesOne(t: Tables, a: Arguments, providerId: string, keys: Keys, after: Tables, r: Provisioned)
    requires Commits(t, a, providerId, keys, after, r) && !IsComplete(Preflight(t, a).value)
    ensures OnlyTheOwner(after, a, providerId, r) && r.status != Unchanged
    ensures r.status == Created <==> t == Tables([], [], [])
  {
    var x := Preflight(t, a).value;
    IncompleteIsAlone(t, a, x);
    FoundOrganization(t, a);
    FoundProfile(t, a);
    hide FindOrganization, FindProfile, FindMembership;
  }

  lemma SinglesFound(t: Tables, a: Arguments, providerId: string, r: Provisioned)
    requires OnlyTheOwner(t, a, providerId, r) && IsArguments(a)
    ensures Preflight(t, a) == Ok(Existing(Some(t.organizations[0]), Some(t.profiles[0]), Some(t.memberships[0])))
  {
    var o, p, m := t.organizations[0], t.profiles[0], t.memberships[0];
    assert t.organizations == [o] && t.profiles == [p] && t.memberships == [m];
    assert WithSlug([o], a.slug) == [o];
    assert WithEmail([p], a.email) == [p];
    assert Of([m], o.id, p.id) == [m];
  }

  lemma {:induction false} ReplacedSame(rows: seq<Profile>, p: Profile)
    ensures Replaced(rows, p, p) == rows
  {
    if rows != [] { ReplacedSame(rows[1..], p); }
  }

  lemma WithEmailFirst(p: Profile, rest: seq<Profile>, email: string)
    ensures WithEmail([p] + rest, email) == (if Casefold(p.email) == email then [p] else []) + WithEmail(rest, email)
  {
    hide Casefold;
    assert ([p] + rest)[1..] == rest;
  }

  lemma ReplacedConcat(a: seq<Profile>, b: seq<Profile>, stale: Profile, current: Profile)
    ensures Replaced(a + b, stale, current) == Replaced(a, stale, current) + Replaced(b, stale, current)
  {
    hide Replaced;
  }

  lemma {:induction false} ReplacedFound(rows: seq<Profile>, email: string, stale: Profile, current: Profile)
    requires Casefold(stale.email) == email && Casefold(current.email) == email
    ensures WithEmail(Replaced(rows, stale, current), email) == Replaced(WithEmail(rows, email), stale, current)
  {
    hide Casefold, WithEmail, Replaced;
    if rows == [] {
      NothingReplaced(email, stale, current);
    } else {
      var first, rest := rows[0], rows[1..];
      var head := if first == stale then current else first;
      var found := if Casefold(first.email) == email then [first] else [];
      assert rows == [first] + rest && Replaced([first], stale, current) == [head];
      ReplacedFound(rest, email, stale, current);
      ReplacedConcat([first], rest, stale, current);
      WithEmailFirst(first, rest, email);
      WithEmailFirst(head, Replaced(rest, stale, current), email);
      ReplacedConcat(found, WithEmail(rest, email), stale, current);
      assert Replaced(found, stale, current) == if Casefold(head.email) == email then [head] else [];
    }
  }

  lemma NothingReplaced(email: string, stale: Profile, current: Profile)
    ensures Replaced([], stale, current) == [] && WithEmail([], email) == []
  {}

  /** With everything there, a run only brings the profile up to date, and finds it again. */
  lemma CompleteStays(t: Tables, a: Arguments, x: Existing, p: Profile)
    requires Preflight(t, a) == Ok(x) && IsComplete(x) && IsArguments(a)
    requires p == x.profile.value.(email := a.email, displayName := a.displayName)
    ensures Preflight(t.(profiles := Replaced(t.profiles, x.profile.value, p)), a) == Ok(x.(profile := Some(p)))
  {
    hide FindOrganization, FindProfile, FindMembership;
    OthersFound(t, a, x, p);
    UpdatedProfileFound(t, a, x.profile.value, p);
  }

  lemma OthersFound(t: Tables, a: Arguments, x: Existing, p: Profile)
    requires x.profile.Some? && p == x.profile.value.(email := a.email, displayName := a.displayName)
    ensures
      var after := t.(profiles := Replaced(t.profiles, x.profile.value, p));
      && FindOrganization(after, a) == FindOrganization(t, a)
      && FindMembership(after, x.organization, Some(p)) == FindMembership(t, x.organization, x.profile)
  {}

  lemma UpdatedProfileFound(t: Tables, a: Arguments, stale: Profile, p: Profile)
    requires FindProfile(t, a) == Ok(Some(stale)) && IsArguments(a)
    requires p == stale.(email := a.email, displayName := a.displayName)
    ensures FindProfile(t.(profiles := Replaced(t.profiles, stale, p)), a) == Ok(Some(p))
  {
    var found := WithEmail(t.profiles, a.email);
    assert found == [stale];
    assert stale in found;
    ReplacedFound(t.profiles, a.email, stale, p);
    assert Replaced([stale], stale, p) == [p];
  }

  /** Every later run with the same arguments and provider identity succeeds, reports the same rows unchanged, and
      leaves the tables as they are; with any other provider identity it is refused. */
  lemma SecondRunUnchanged(t: Tables, a: Arguments, providerId: string, keys: Keys, after: Tables, r: Provisioned,
                           again: Keys, other: string)
    requires Commits(t, a, providerId, keys, after, r) && IsArguments(a)
    ensures Commits(after, a, providerId, again, after, r.(status := Unchanged))
    ensures other != providerId ==> !IdentityFits(after, Preflight(after, a).value, other)
  {
    var x := Preflight(t, a).value;
    if IsComplete(x) {
      var p := ProfileOf(x, a, providerId, keys);
      CompleteStays(t, a, x, p);
      ReplacedSame(after.profiles, p);
      hide Preflight, FindOrganization, FindProfile, FindMembership, Replaced;
    } else {
      IncompleteLeavesOne(t, a, providerId, keys, after, r);
      SinglesFound(after, a, providerId, r);
      ReplacedSame(after.profiles, after.profiles[0]);
      hide Preflight, FindOrganization, FindProfile, FindMembership, Replaced;
    }
  }

  // ---------------------------------------------------------------------------------------------
  // Any number of runs, one after another under the lock
  // ---------------------------------------------------------------------------------------------

  /** How a run of the sequence meets the provider, which has one identity for the email, and the database. */
  datatype Call = Call(available: bool, invited: bool, keys: Keys)

  function ProviderFor(call: Call, user: User): Provider {
    Provider(call.available, if call.invited then None else Some(user), user)
  }

  /** What the runs say, in their order: refusals up to the first success; after it every success reports the rows of
      the first, unchanged. */
  ghost predicate SameFromFirst(results: seq<Option<Provisioned>>) {
    forall i, j :: 0 <= i < j < |results| && results[i].Some? && results[j].Some? ==>
      results[j].value == results[i].value.(status := Unchanged)
  }

  /** The tables are those that a first success committed. */
  ghost predicate Standing(t: Tables, a: Arguments, providerId: string, r: Provisioned) {
    forall keys :: Commits(t, a, providerId, keys, t, r.(status := Unchanged))
  }

  lemma CommittedStands(t: Tables, a: Arguments, providerId: string, keys: Keys, after: Tables, r: Provisioned)
    requires Commits(t, a, providerId, keys, after, r) && IsArguments(a)
    ensures Standing(after, a, providerId, r)
  {
    hide Commits;
    forall again ensures Commits(after, a, providerId, again, after, r.(status := Unchanged)) {
      SecondRunUnchanged(t, a, providerId, keys, after, r, again, providerId);
    }
  }

  lemma StandingAgain(t: Tables, a: Arguments, providerId: string, r: Provisioned, keys: Keys, after: Tables, again: Provisioned)
    requires Standing(t, a, providerId, r) && Commits(t, a, providerId, keys, after, again)
    ensures after == t && again == r.(status := Unchanged)
  {
    assert Commits(t, a, providerId, keys, t, r.(status := Unchanged));
    hide Preflight, IdentityFits, Completing, ResultOf;
  }

  /** Runs with the same arguments and provider identity, in the order in which they get the lock, however many have
      waited for it: a refused run changes nothing, and from the first success on the tables stay as they are and every
      success reports the same rows unchanged. */
  method BootstrapRepeatedly(db: Session, a: Arguments, user: User, calls: seq<Call>)
    returns (results: seq<Option<Provisioned>>, ghost tables: seq<Tables>)
    requires IsArguments(a)
    modifies db
    ensures |results| == |calls| && |tables| == |calls| + 1
    ensures tables[0] == old(db.tables) && tables[|calls|] == db.tables
    ensures forall i :: 0 <= i < |calls| && results[i].None? ==> tables[i + 1] == tables[i]
    ensures forall i :: 0 <= i < |calls| && results[i].Some? ==>
      Commits(tables[i], a, user.id, calls[i].keys, tables[i + 1], results[i].value)
    ensures SameFromFirst(results)
    ensures forall i, j :: 0 <= i < j <= |calls| && results[i].Some? ==> tables[j] == tables[i + 1]
  {
    hide Commits, Standing, Succeeds, Preflight;
    results, tables := [], [db.tables];
    for n := 0 to |calls|
      invariant |results| == n && |tables| == n + 1
      invariant tables[0] == old(db.tables) && tables[n] == db.tables
      invariant forall i :: 0 <= i < n && results[i].None? ==> tables[i + 1] == tables[i]
      invariant forall i :: 0 <= i < n && results[i].Some? ==>
        Commits(tables[i], a, user.id, calls[i].keys, tables[i + 1], results[i].value)
      invariant forall i :: 0 <= i < n && results[i].Some? ==>
        tables[i + 1] == db.tables && Standing(db.tables, a, user.id, results[i].value)
      invariant SameFromFirst(results)
      invariant forall i, j :: 0 <= i < j <= n && results[i].Some? ==> tables[j] == tables[i + 1]
    {
      ghost var before := db.tables;
      var r := BootstrapCloudOwner(db, a, ProviderFor(calls[n], user), db.tables, calls[n].keys);
      if r.Ok? {
        CommittedStands(before, a, user.id, calls[n].keys, db.tables, r.value.0);
        forall i | 0 <= i < n && results[i].Some?
          ensures db.tables == before && r.value.0 == results[i].value.(status := Unchanged)
        {
          StandingAgain(before, a, user.id, results[i].value, calls[n].keys, db.tables, r.value.0);
        }
      }
      results := results + [if r.Ok? then Some(r.value.0) else None];
      tables := tables + [db.tables];
    }
  }
}
