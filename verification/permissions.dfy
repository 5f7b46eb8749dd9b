/**
  The permission classes of the tracker and the way the REST framework
  applies a list of them to a request.

  A permission class answers twice: `has_permission` for every request,
  before the handler runs, and `has_object_permission` only when the handler
  loads one object through `get_object`. The three classes defined in the
  source override only the second; their first answer is the framework's
  default, which allows. Two classes the views import from `common.permissions`,
  `IsProjectContributorOrAdmin` and `IsAuthorOrAdmin`, are not defined in that
  module, and the default classes
  come from settings that are not part of this model: their answers are the
  uninterpreted booleans of `Unknowns`.
*/
module Permissions {
  import opened Wrappers
  import opened Models

  /** The user a request is made by. `id` is the account's primary key. */
  datatype Requester = Anonymous | SignedIn(id: UserId, account: User) {
    predicate IsSuperuser() { SignedIn? && account.isSuperuser }
    predicate IsStaff() { SignedIn? && account.isStaff }
  }

  /** How a request fails: 401, 403, 404, 400, 405 and 500. */
  datatype Failure =
    | NotAuthenticated
    | PermissionDenied
    | NotFound
    | ValidationError
    | MethodNotAllowed
    | ServerError

  /** The object a detail handler loaded. Contributor records, issues and
      comments are never read by a defined permission class. */
  datatype Target = UserTarget(user: UserId) | ProjectTarget(project: ProjectId) | RowTarget

  /** The role the manager check filters on. */
  const ManagerRoleTested := "manager"
  /** The role project creation gives the creator. */
  const CreatorRole := "MANAGER"

  /** `obj.contributors.filter(user=..., role=...)` on a project. */
  function RoleRecords(contributors: map<ContributorId, Contributor>, p: ProjectId, user: UserId, role: string): set<ContributorId>
  {
    set c | c in contributors && contributors[c] == Contributor(user, p, role)
  }

  /** `obj.contributors.filter(user=...)` on a project. */
  function MemberRecords(contributors: map<ContributorId, Contributor>, p: ProjectId, user: UserId): set<ContributorId>
  {
    set c | c in contributors && contributors[c].user == user && contributors[c].project == p
  }

  /** A filter is non-empty exactly when some record matches it. */
  lemma RoleRecordsExist(contributors: map<ContributorId, Contributor>, p: ProjectId, user: UserId, role: string)
    ensures RoleRecords(contributors, p, user, role) != {} <==>
      exists c :: c in contributors && contributors[c] == Contributor(user, p, role)
  {
    var found := RoleRecords(contributors, p, user, role);
    if exists c :: c in contributors && contributors[c] == Contributor(user, p, role) {
      var c :| c in contributors && contributors[c] == Contributor(user, p, role);
      assert c in found;
    }
    if found != {} {
      var c :| c in found;
    }
  }

  lemma MemberRecordsExist(contributors: map<ContributorId, Contributor>, p: ProjectId, user: UserId)
    ensures MemberRecords(contributors, p, user) != {} <==> IsMember(contributors, user, p)
  {
    var found := MemberRecords(contributors, p, user);
    if IsMember(contributors, user, p) {
      var c :| c in contributors && contributors[c].user == user && contributors[c].project == p;
      assert c in found;
    }
    if found != {} {
      var c :| c in found;
    }
  }

  /** A superuser, or the account the request acts on. Model instances compare
      by primary key, and a loaded project is never equal to a user. */
  function IsAccountOwnerOrAdmin(r: Requester, t: Target): (allow: bool)
    ensures r.IsSuperuser() ==> allow
    ensures !r.IsSuperuser() ==> (allow <==> r.SignedIn? && t == UserTarget(r.id))
    ensures r.Anonymous? ==> !allow
  {
    r.IsSuperuser() ||
    match r
    case Anonymous => false
    case SignedIn(id, _) => t == UserTarget(id)
  }

  /** A superuser before any lookup; otherwise a contributor record of this
      user in this project whose role is exactly "manager". */
  function IsProjectManagerOrAdmin(r: Requester, contributors: map<ContributorId, Contributor>, p: ProjectId): (allow: bool)
    ensures r.IsSuperuser() ==> allow
    ensures !r.IsSuperuser() ==>
      (allow <==> r.SignedIn? && exists c :: c in contributors && contributors[c] == Contributor(r.id, p, ManagerRoleTested))
  {
    if r.IsSuperuser() then true
    else if r.Anonymous? then false
    else
      RoleRecordsExist(contributors, p, r.id, ManagerRoleTested);
      RoleRecords(contributors, p, r.id, ManagerRoleTested) != {}
  }

  /** The manager check as evidently intended: it tests the role that project
      creation writes. */
  function IsProjectManagerOrAdminIntended(r: Requester, contributors: map<ContributorId, Contributor>, p: ProjectId): (allow: bool)
    ensures r.IsSuperuser() ==> allow
    ensures !r.IsSuperuser() ==>
      (allow <==> r.SignedIn? && exists c :: c in contributors && contributors[c] == Contributor(r.id, p, CreatorRole))
  {
    if r.IsSuperuser() then true
    else if r.Anonymous? then false
    else
      RoleRecordsExist(contributors, p, r.id, CreatorRole);
      RoleRecords(contributors, p, r.id, CreatorRole) != {}
  }

  /** A superuser, or any contributor record of this user in this project. */
  function IsContributorOrAdmin(r: Requester, contributors: map<ContributorId, Contributor>, p: ProjectId): (allow: bool)
    ensures allow <==> r.IsSuperuser() || (r.SignedIn? && IsMember(contributors, r.id, p))
  {
    if r.IsSuperuser() then true
    else if r.Anonymous? then false
    else
      MemberRecordsExist(contributors, p, r.id);
      MemberRecords(contributors, p, r.id) != {}
  }

  /** Whoever passes a manager check passes the contributor check on the same project. */
  lemma ManagerIsContributor(r: Requester, contributors: map<ContributorId, Contributor>, p: ProjectId)
    ensures IsProjectManagerOrAdmin(r, contributors, p) ==> IsContributorOrAdmin(r, contributors, p)
    ensures IsProjectManagerOrAdminIntended(r, contributors, p) ==> IsContributorOrAdmin(r, contributors, p)
  {
  }

  /** As written, a creator who is not a superuser never passes the manager
      check: the one record creation gives them says "MANAGER", and there is at
      most one record per (user, project). */
  lemma CreatorFailsManagerCheck(r: Requester, contributors: map<ContributorId, Contributor>, p: ProjectId, c: ContributorId)
    requires UniqueMembership(contributors)
    requires r.SignedIn? && !r.account.isSuperuser
    requires c in contributors && contributors[c] == Contributor(r.id, p, CreatorRole)
    ensures !IsProjectManagerOrAdmin(r, contributors, p)
  {
  }

  /** With the intended check, the creator's record makes them a manager. */
  lemma CreatorPassesIntendedManagerCheck(r: Requester, contributors: map<ContributorId, Contributor>, p: ProjectId, c: ContributorId)
    requires r.SignedIn?
    requires c in contributors && contributors[c] == Contributor(r.id, p, CreatorRole)
    ensures IsProjectManagerOrAdminIntended(r, contributors, p)
  {
  }

  // ---------------------------------------------------------------------
  // Applying a list of permission classes
  // ---------------------------------------------------------------------

  /** The routed actions of a model view set; `Metadata` is an OPTIONS request,
      the one action no view set names. */
  datatype Action = List | Create | Retrieve | Update | PartialUpdate | Destroy | Metadata {
    predicate Mutates() { this == Update || this == PartialUpdate || this == Destroy }
    /** The actions whose default handler loads one object. */
    predicate OnObject() { this == Retrieve || Mutates() }
  }

  datatype Check =
    | IsAuthenticated
    | AllowAny
    | IsAdminUser
    | AccountOwnerOrAdmin
    | ProjectManagerOrAdmin
    | ProjectContributorOrAdmin
    | AuthorOrAdmin
    | DefaultClasses

  /** The two answers of a class whose code is not part of this model. */
  datatype Stages = Stages(onRequest: bool, onObject: bool)

  datatype Unknowns = Unknowns(projectContributorOrAdmin: Stages, authorOrAdmin: Stages, defaults: Stages)

  /** `has_permission`, asked of every class before the handler runs. */
  function HasPermission(c: Check, r: Requester, u: Unknowns): (allow: bool)
    ensures c == IsAuthenticated ==> (allow <==> r.SignedIn?)
    ensures c == IsAdminUser ==> (allow <==> r.IsStaff())
    ensures c in {AllowAny, AccountOwnerOrAdmin, ProjectManagerOrAdmin} ==> allow
  {
    match c
    case IsAuthenticated => r.SignedIn?
    case AllowAny => true
    case IsAdminUser => r.IsStaff()
    case AccountOwnerOrAdmin => true
    case ProjectManagerOrAdmin => true
    case ProjectContributorOrAdmin => u.projectContributorOrAdmin.onRequest
    case AuthorOrAdmin => u.authorOrAdmin.onRequest
    case DefaultClasses => u.defaults.onRequest
  }

  /** `has_object_permission`, asked only of a loaded object; the manager
      check is the one written, testing "manager". On an object that is not a
      project that check would fail on a missing attribute unless the user is
      a superuser; no view set reaches that case. `IsContributorOrAdmin` is
      not listed: no view set names it. */
  function HasObjectPermission(c: Check, r: Requester, contributors: map<ContributorId, Contributor>, t: Target, u: Unknowns): (allow: bool)
    ensures c in {IsAuthenticated, AllowAny, IsAdminUser} ==> allow
    ensures c == AccountOwnerOrAdmin ==> (allow <==> IsAccountOwnerOrAdmin(r, t))
    ensures c == ProjectManagerOrAdmin && t.ProjectTarget? ==>
      (allow <==> IsProjectManagerOrAdmin(r, contributors, t.project))
  {
    match c
    case IsAuthenticated => true
    case AllowAny => true
    case IsAdminUser => true
    case AccountOwnerOrAdmin => IsAccountOwnerOrAdmin(r, t)
    case ProjectManagerOrAdmin =>
      (match t
       case ProjectTarget(p) => IsProjectManagerOrAdmin(r, contributors, p)
       case _ => r.IsSuperuser())
    case ProjectContributorOrAdmin => u.projectContributorOrAdmin.onObject
    case AuthorOrAdmin => u.authorOrAdmin.onObject
    case DefaultClasses => u.defaults.onObject
  }

  datatype Decision = Allow | Deny(failure: Failure)

  /** A refused permission is a 401 for an anonymous request and a 403 otherwise. */
  function Refusal(r: Requester): (f: Failure)
    ensures f == NotAuthenticated <==> r.Anonymous?
    ensures f == PermissionDenied <==> r.SignedIn?
  {
    if r.SignedIn? then PermissionDenied else NotAuthenticated
  }

  /** The classes are asked in order and the first refusal ends the request. */
  function CheckPermissions(checks: seq<Check>, r: Requester, u: Unknowns): (d: Decision)
    ensures d == Allow <==> forall c :: c in checks ==> HasPermission(c, r, u)
    ensures d != Allow ==> d == Deny(Refusal(r))
    decreases |checks|
  {
    if checks == [] then Allow
    else if !HasPermission(checks[0], r, u) then Deny(Refusal(r))
    else CheckPermissions(checks[1..], r, u)
  }

  function CheckObjectPermissions(checks: seq<Check>, r: Requester, contributors: map<ContributorId, Contributor>,
                                  t: Target, u: Unknowns): (d: Decision)
    ensures d == Allow <==> forall c :: c in checks ==> HasObjectPermission(c, r, contributors, t, u)
    ensures d != Allow ==> d == Deny(Refusal(r))
    decreases |checks|
  {
    if checks == [] then Allow
    else if !HasObjectPermission(checks[0], r, contributors, t, u) then Deny(Refusal(r))
    else CheckObjectPermissions(checks[1..], r, contributors, t, u)
  }
}
