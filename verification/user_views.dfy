/**
  The account and contributor endpoints: who may create, list, change and
  delete accounts, the bulk account creation, and the contributor records of a
  project.
*/
module UserViews {
  import opened Wrappers
  import opened Models
  import opened Database
  import opened Permissions

  // ---------------------------------------------------------------------
  // Accounts
  // ---------------------------------------------------------------------

  /** Anyone may create an account; changing or deleting one needs the owner
      check on the loaded account; listing needs staff; reading one falls back
      to the default classes. */
  function UserPermissions(a: Action): (checks: seq<Check>)
    ensures (DefaultClasses in checks) <==> a in {Retrieve, Metadata}
    ensures a == Create ==> forall r, u :: CheckPermissions(checks, r, u) == Allow
    ensures a == List ==> forall r, u :: CheckPermissions(checks, r, u) == Allow <==> r.IsStaff()
    ensures a.Mutates() ==> forall r, u :: CheckPermissions(checks, r, u) == Allow
    ensures a.Mutates() ==>
      forall r, cs, t, u :: CheckObjectPermissions(checks, r, cs, t, u) == Allow <==> IsAccountOwnerOrAdmin(r, t)
  {
    if a == Create then [AllowAny]
    else if a.Mutates() then [AccountOwnerOrAdmin]
    else if a == List then [IsAdminUser]
    else [DefaultClasses]
  }

  /** Listing accounts: every account for staff, refused for everyone else. */
  function UserList(db: Db, r: Requester, u: Unknowns): (res: Result<set<UserId>, Failure>)
    ensures res.Ok? <==> r.IsStaff()
    ensures res.Ok? ==> res.value == db.users.Keys
    ensures res.Err? ==> res.error == Refusal(r)
  {
    match CheckPermissions(UserPermissions(List), r, u)
    case Deny(f) => Err(f)
    case Allow => Ok(db.users.Keys)
  }

  /** A detail action on one account. The queryset is every account, so the
      lookup answers 404 for a missing account before any object check, even
      to an anonymous request. */
  function UserDetail(db: Db, r: Requester, a: Action, pk: UserId, u: Unknowns): (res: Result<UserId, Failure>)
    requires a.OnObject()
    ensures res.Ok? ==> res.value == pk && pk in db.users
    ensures a.Mutates() ==> (res.Ok? <==> pk in db.users && IsAccountOwnerOrAdmin(r, UserTarget(pk)))
    ensures a.Mutates() && pk !in db.users ==> res == Err(NotFound)
    ensures a.Mutates() && pk in db.users && r.Anonymous? ==> res == Err(NotAuthenticated)
    ensures a.Mutates() && pk in db.users && r.SignedIn? && !IsAccountOwnerOrAdmin(r, UserTarget(pk)) ==>
      res == Err(PermissionDenied)
    ensures res.Err? ==> res.error in {Refusal(r), NotFound}
    ensures a == Retrieve ==> (res.Ok? <==> u.defaults.onRequest && pk in db.users && u.defaults.onObject)
  {
    match CheckPermissions(UserPermissions(a), r, u)
    case Deny(f) => Err(f)
    case Allow =>
      if pk !in db.users then Err(NotFound)
      else
        match CheckObjectPermissions(UserPermissions(a), r, map[], UserTarget(pk), u)
        case Deny(f) => Err(f)
        case Allow => Ok(pk)
  }

  /** A creation request carries one account or a list of them. */
  datatype UserPayload = One(user: User) | Many(users: seq<User>)

  function Records(p: UserPayload): (us: seq<User>)
    ensures p.One? ==> us == [p.user]
    ensures p.Many? ==> us == p.users
  {
    match p
    case One(x) => [x]
    case Many(xs) => xs
  }

  /** The serializer refuses a record without a username before anything is saved. */
  predicate MissingName(us: seq<User>)
  {
    exists j :: 0 <= j < |us| && us[j].username == []
  }

  /** The number of records saved before the first one `User.save` rejects. */
  function AcceptedPrefix(us: seq<User>): (k: nat)
    ensures k <= |us|
    ensures forall j :: 0 <= j < k ==> SaveRejection(us[j]).None?
    ensures k < |us| ==> SaveRejection(us[k]).Some?
    decreases |us|
  {
    if us == [] then 0
    else if SaveRejection(us[0]).Some? then 0
    else 1 + AcceptedPrefix(us[1..])
  }

  /** The accounts table after saving the first |created| records of `us`
      under the keys `created`: each key is new and holds its record, the keys
      are distinct, and every other account is as it was. */
  predicate SavedAsGiven(before: map<UserId, User>, after: map<UserId, User>, created: seq<UserId>, us: seq<User>)
    requires |created| <= |us|
  {
    (forall j :: 0 <= j < |created| ==> created[j] !in before && created[j] in after && after[created[j]] == us[j]) &&
    (forall j, k :: 0 <= j < k < |created| ==> created[j] != created[k]) &&
    (forall k :: k in before ==> k in after && after[k] == before[k]) &&
    (forall k :: k in after ==> k in before || k in created)
  }

  /** Saving the next record under a key not yet in use extends the saved prefix. */
  lemma SavedAsGivenStep(before: map<UserId, User>, after: map<UserId, User>, created: seq<UserId>, us: seq<User>, id: UserId)
    requires |created| < |us| && SavedAsGiven(before, after, created, us) && id !in after
    ensures SavedAsGiven(before, after[id := us[|created|]], created + [id], us)
  {
  }

  /** Creating accounts, with no permission check at all. Every record is
      validated first; then the records are saved one at a time, and the
      first one `User.save` rejects (under age) ends the request with a 500,
      while the records before it stay saved. The flags of a record, the
      superuser flag included, are stored as given. */
  method CreateUsers(store: Store, payload: UserPayload) returns (created: seq<UserId>, outcome: Option<Failure>)
    requires store.Valid()
    modifies store
    ensures store.Valid()
    ensures outcome == Some(ValidationError) <==> MissingName(Records(payload))
    ensures outcome == Some(ValidationError) ==> created == [] && store.users == old(store.users)
    ensures !MissingName(Records(payload)) ==>
      |created| == AcceptedPrefix(Records(payload)) &&
      (outcome.None? <==> |created| == |Records(payload)|) &&
      (outcome.Some? ==> outcome.value == ServerError)
    ensures |created| <= |Records(payload)| && SavedAsGiven(old(store.users), store.users, created, Records(payload))
    ensures store.projects == old(store.projects) && store.contributors == old(store.contributors)
    ensures store.issues == old(store.issues) && store.comments == old(store.comments)
  {
    var us := Records(payload);
    created := [];
    if MissingName(us) {
      return created, Some(ValidationError);
    }
    var i := 0;
    while i < |us|
      invariant 0 <= i <= |us| && |created| == i
      invariant store.Valid()
      invariant forall j :: 0 <= j < i ==> SaveRejection(us[j]).None?
      invariant SavedAsGiven(old(store.users), store.users, created, us)
      invariant store.projects == old(store.projects) && store.contributors == old(store.contributors)
      invariant store.issues == old(store.issues) && store.comments == old(store.comments)
    {
      label step:
      var saved := store.SaveUser(us[i]);
      if saved.Err? {
        return created, Some(ServerError);
      }
      SavedAsGivenStep(old(store.users), old@step(store.users), created, us, saved.value);
      created := created + [saved.value];
      i := i + 1;
    }
    outcome := None;
  }

  /** Account creation is open: an anonymous request may create any account,
      a superuser included, and the account is stored with its flags. */
  lemma AnyoneMayCreateSuperuser(r: Requester, u: Unknowns, x: User)
    requires x.isSuperuser && SaveRejection(x).None?
    ensures CheckPermissions(UserPermissions(Create), r, u) == Allow
    ensures AcceptedPrefix(Records(One(x))) == 1 && !MissingName(Records(One(x)))
  {
  }

  // ---------------------------------------------------------------------
  // Contributors
  // ---------------------------------------------------------------------

  /** Adding, changing and removing need the manager check; listing needs the
      project-contributor check; anything else falls back to the defaults. */
  function ContributorPermissions(a: Action): (checks: seq<Check>)
    ensures (DefaultClasses in checks) <==> a in {Retrieve, Metadata}
    ensures (ProjectManagerOrAdmin in checks) <==> a == Create || a.Mutates()
    ensures (ProjectContributorOrAdmin in checks) <==> a == List
    ensures a !in {Retrieve, Metadata} ==> |checks| == 2 && checks[0] == IsAuthenticated
  {
    if a == Create || a.Mutates() then [IsAuthenticated, ProjectManagerOrAdmin]
    else if a == List then [IsAuthenticated, ProjectContributorOrAdmin]
    else [DefaultClasses]
  }

  /** The view set answers GET, POST and DELETE only. */
  predicate ContributorExposes(a: Action)
  {
    a in {List, Retrieve, Create, Destroy}
  }

  /** The request stage of a contributor request: the permission classes first,
      then the method check, so a refused PUT is a 401 or 403 and an allowed
      one a 405. Creation and removal never load a record, so the manager
      check never runs on them: any signed-in user passes. */
  function ContributorRequest(r: Requester, a: Action, u: Unknowns): (d: Decision)
    ensures d == Allow ==> ContributorExposes(a)
    ensures !ContributorExposes(a) ==>
      (d == Deny(MethodNotAllowed) <==> CheckPermissions(ContributorPermissions(a), r, u) == Allow)
    ensures a in {Create, Destroy} ==> (d == Allow <==> r.SignedIn?)
    ensures a == List ==> (d == Allow <==> r.SignedIn? && u.projectContributorOrAdmin.onRequest)
    ensures r.Anonymous? && a != Metadata && a != Retrieve ==> d == Deny(NotAuthenticated)
  {
    match CheckPermissions(ContributorPermissions(a), r, u)
    case Deny(f) => Deny(f)
    case Allow => if ContributorExposes(a) then Allow else Deny(MethodNotAllowed)
  }

  /** The contributor queryset: the records of the URL's project, or every
      record when the URL names none. */
  function ScopedContributors(db: Db, projectPk: Option<ProjectId>): (rows: set<ContributorId>)
    ensures projectPk.None? ==> rows == db.contributors.Keys
    ensures projectPk.Some? ==>
      forall c :: c in rows <==> c in db.contributors && db.contributors[c].project == projectPk.value
  {
    match projectPk
    case None => db.contributors.Keys
    case Some(p) => set c | c in db.contributors && db.contributors[c].project == p
  }

  function ContributorList(db: Db, r: Requester, projectPk: Option<ProjectId>, u: Unknowns): (res: Result<set<ContributorId>, Failure>)
    ensures res.Ok? <==> r.SignedIn? && u.projectContributorOrAdmin.onRequest
    ensures res.Ok? ==> res.value == ScopedContributors(db, projectPk)
    ensures res.Err? ==> res.error == Refusal(r)
  {
    match ContributorRequest(r, List, u)
    case Deny(f) => Err(f)
    case Allow => Ok(ScopedContributors(db, projectPk))
  }

  /** Reading one record: the default classes, a 404 outside the queryset,
      then the default classes' object check. */
  function ContributorDetail(db: Db, r: Requester, projectPk: Option<ProjectId>, pk: ContributorId, u: Unknowns): (res: Result<ContributorId, Failure>)
    ensures res.Ok? <==>
      u.defaults.onRequest && pk in ScopedContributors(db, projectPk) && u.defaults.onObject
    ensures res.Ok? ==> res.value == pk && pk in db.contributors
    ensures u.defaults.onRequest && pk !in ScopedContributors(db, projectPk) ==> res == Err(NotFound)
    ensures res.Err? ==> res.error in {Refusal(r), NotFound}
  {
    match ContributorRequest(r, Retrieve, u)
    case Deny(f) => Err(f)
    case Allow =>
      if pk !in ScopedContributors(db, projectPk) then Err(NotFound)
      else
        match CheckObjectPermissions(ContributorPermissions(Retrieve), r, db.contributors, RowTarget, u)
        case Deny(f) => Err(f)
        case Allow => Ok(pk)
  }

  /** A contributor payload names a user and a project; the saved record takes
      the URL's project instead. */
  datatype ContributorPayload = ContributorPayload(user: UserId, project: ProjectId)

  /** The role of a record added through the endpoint, which sends none. */
  const UnsetRole := ""

  /** Adding a contributor: the payload's user and project must exist and not
      already be paired, the URL's project must exist, and the user must not
      already be a contributor of it; each failure is a 400 and leaves the
      store as it was. The record then saved is the only one of that user in
      that project. */
  method AddContributor(store: Store, projectPk: Option<ProjectId>, payload: ContributorPayload) returns (res: Result<ContributorId, Failure>)
    requires store.Valid()
    modifies store
    ensures store.Valid()
    ensures res.Ok? <==>
      payload.user in old(store.users) && payload.project in old(store.projects) &&
      !IsMember(old(store.contributors), payload.user, payload.project) &&
      projectPk.Some? && projectPk.value in old(store.projects) &&
      !IsMember(old(store.contributors), payload.user, projectPk.value)
    ensures res.Err? ==> res.error == ValidationError && store.Snapshot() == old(store.Snapshot())
    ensures res.Ok? ==>
      res.value !in old(store.contributors) &&
      store.contributors == old(store.contributors)[res.value := Contributor(payload.user, projectPk.value, UnsetRole)]
    ensures res.Ok? ==> MemberRecords(store.contributors, projectPk.value, payload.user) == {res.value}
    ensures store.users == old(store.users) && store.projects == old(store.projects)
    ensures store.issues == old(store.issues) && store.comments == old(store.comments)
  {
    if payload.user !in store.users || payload.project !in store.projects ||
       IsMember(store.contributors, payload.user, payload.project) {
      return Err(ValidationError);
    }
    if projectPk.None? || projectPk.value !in store.projects {
      return Err(ValidationError);
    }
    var p := projectPk.value;
    if IsMember(store.contributors, payload.user, p) {
      return Err(ValidationError);
    }
    ghost var before := store.contributors;
    var id := store.InsertContributor(Contributor(payload.user, p, UnsetRole));
    res := Ok(id);
    forall c | c in MemberRecords(store.contributors, p, payload.user)
      ensures c == id
    {
    }
    assert id in MemberRecords(store.contributors, p, payload.user);
  }

  /** The names under which a contributor is looked up by primary key: the
      declared key column and the `pk` alias. */
  const ContributorKeyNames := {"pk", "contributor_id"}
  /** The name the removal handler looks the record up by. */
  const DestroyLookupName := "id"

  /** `get(<name>=key, project__id=project)`, for the two names the removal
      handler could use: by a primary-key name, the record if it belongs to the
      project and 404 otherwise; by `id`, which the model does not have, a
      FieldError, which is a 500. */
  function LookupContributor(db: Db, name: string, key: ContributorId, project: ProjectId): (res: Result<ContributorId, Failure>)
    requires name in ContributorKeyNames || name == DestroyLookupName
    ensures name !in ContributorKeyNames ==> res == Err(ServerError)
    ensures name in ContributorKeyNames ==>
      (res.Ok? <==> key in db.contributors && db.contributors[key].project == project) &&
      (res.Err? ==> res.error == NotFound)
    ensures res.Ok? ==> res.value == key
  {
    if name !in ContributorKeyNames then Err(ServerError)
    else if key in db.contributors && db.contributors[key].project == project then Ok(key)
    else Err(NotFound)
  }

  /** As written, removal looks the record up by `id`, which the model does not
      have: even a record that exists in the URL's project gives a 500. */
  lemma DestroyLookupAsWrittenFails(db: Db, key: ContributorId, project: ProjectId)
    requires key in db.contributors && db.contributors[key].project == project
    ensures LookupContributor(db, DestroyLookupName, key, project) == Err(ServerError)
    ensures LookupContributor(db, "pk", key, project) == Ok(key)
  {
  }

  /** Removal as evidently intended: a lookup by primary key within the URL's
      project, 404 when there is none, otherwise the record is deleted with
      every issue assigned to it and those issues' comments. */
  method RemoveContributor(store: Store, projectPk: Option<ProjectId>, pk: ContributorId) returns (res: Result<ContributorId, Failure>)
    requires store.Valid()
    modifies store
    ensures store.Valid()
    ensures res.Ok? <==>
      projectPk.Some? && pk in old(store.contributors) && old(store.contributors)[pk].project == projectPk.value
    ensures res.Ok? ==> res.value == pk
    ensures res.Err? ==> res.error == NotFound && store.Snapshot() == old(store.Snapshot())
    ensures res.Ok? ==>
      store.Snapshot() == Cascade(old(store.Snapshot()), ContributorSeed(pk)) &&
      store.contributors == old(store.contributors) - {pk} &&
      store.users == old(store.users) && store.projects == old(store.projects)
  {
    if projectPk.None? {
      return Err(NotFound);
    }
    var found := LookupContributor(store.Snapshot(), "pk", pk, projectPk.value);
    if found.Err? {
      return Err(NotFound);
    }
    DeleteContributorRemovesAssignedIssues(store.Snapshot(), pk);
    store.Delete(ContributorSeed(pk));
    res := Ok(pk);
  }
}
