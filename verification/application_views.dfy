/**
  The project, issue and comment endpoints: which permission classes each
  action gets, which rows a request can see, how a nested URL is resolved
  to one row, and the two creations that write more than the payload says.

  URL parameters are plain arguments; an absent one is `None`.
*/
module ApplicationViews {
  import opened Wrappers
  import opened Models
  import opened Database
  import opened Permissions

  // ---------------------------------------------------------------------
  // Projects
  // ---------------------------------------------------------------------

  /** Reading and creating need a signed-in user; changing or deleting a
      project also needs the manager check on the loaded project; any other
      action falls back to the default classes. */
  function ProjectPermissions(a: Action): (checks: seq<Check>)
    ensures (DefaultClasses in checks) <==> a == Metadata
    ensures a != Metadata ==> |checks| > 0 && checks[0] == IsAuthenticated
    ensures a in {Create, Retrieve, List} ==>
      forall r, u :: CheckPermissions(checks, r, u) == Allow <==> r.SignedIn?
    ensures a.Mutates() ==>
      forall r, u :: CheckPermissions(checks, r, u) == Allow <==> r.SignedIn?
    ensures a.Mutates() ==>
      forall r, cs, p, u :: CheckObjectPermissions(checks, r, cs, ProjectTarget(p), u) == Allow <==>
        IsProjectManagerOrAdmin(r, cs, p)
  {
    if a in {Create, Retrieve, List} then [IsAuthenticated]
    else if a.Mutates() then [IsAuthenticated, ProjectManagerOrAdmin]
    else [DefaultClasses]
  }

  /** The projects `user` holds a contributor record in. */
  function MemberProjects(db: Db, user: UserId): set<ProjectId>
  {
    set p | p in db.projects && IsMember(db.contributors, user, p)
  }

  lemma MemberProjectsExist(db: Db, user: UserId)
    ensures MemberProjects(db, user) != {} <==> exists p :: p in db.projects && IsMember(db.contributors, user, p)
  {
    var found := MemberProjects(db, user);
    if exists p :: p in db.projects && IsMember(db.contributors, user, p) {
      var p :| p in db.projects && IsMember(db.contributors, user, p);
      assert p in found;
    }
    if found != {} {
      var p :| p in found;
    }
  }

  /** The project queryset of a request: refused without a user, every project
      for staff, otherwise the projects the user is a contributor of, and
      refused rather than empty when there are none. */
  function VisibleProjects(db: Db, r: Requester): (res: Result<set<ProjectId>, Failure>)
    ensures r.Anonymous? ==> res == Err(PermissionDenied)
    ensures r.IsStaff() ==> res == Ok(db.projects.Keys)
    ensures r.SignedIn? && !r.IsStaff() ==>
      (res.Ok? <==> exists p :: p in db.projects && IsMember(db.contributors, r.id, p))
    ensures r.SignedIn? && !r.IsStaff() && res.Ok? ==>
      forall p :: p in res.value <==> p in db.projects && IsMember(db.contributors, r.id, p)
    ensures res.Err? ==> res.error == PermissionDenied
  {
    if r.Anonymous? then Err(PermissionDenied)
    else if r.account.isStaff then Ok(db.projects.Keys)
    else
      MemberProjectsExist(db, r.id);
      var mine := MemberProjects(db, r.id);
      if mine == {} then Err(PermissionDenied)
      else Ok(mine)
  }

  /** For a user who is neither staff nor superuser, the listing is exactly the
      projects the single-project contributor check allows. */
  lemma ListingAgreesWithContributorCheck(db: Db, r: Requester, p: ProjectId)
    requires r.SignedIn? && !r.IsStaff() && !r.IsSuperuser()
    requires VisibleProjects(db, r).Ok?
    ensures p in VisibleProjects(db, r).value <==> p in db.projects && IsContributorOrAdmin(r, db.contributors, p)
  {
  }

  /** "Admin" is `is_staff` for the listing but `is_superuser` for the checks:
      a superuser who is not staff and holds no contributor record passes the
      contributor check on every project and is still refused the listing. */
  lemma SuperuserWithoutStaffIsRefused(db: Db, r: Requester, p: ProjectId)
    requires r.IsSuperuser() && !r.IsStaff()
    requires forall q :: q in db.projects ==> !IsMember(db.contributors, r.id, q)
    ensures IsContributorOrAdmin(r, db.contributors, p)
    ensures VisibleProjects(db, r) == Err(PermissionDenied)
  {
  }

  /** The list action: the permission stage, then the scoped queryset. */
  function ProjectList(db: Db, r: Requester, u: Unknowns): (res: Result<set<ProjectId>, Failure>)
    ensures r.Anonymous? ==> res == Err(NotAuthenticated)
    ensures r.SignedIn? ==> res == VisibleProjects(db, r)
  {
    match CheckPermissions(ProjectPermissions(List), r, u)
    case Deny(f) => Err(f)
    case Allow => VisibleProjects(db, r)
  }

  /** The stages every detail action on a project shares: the permission
      stage, then the lookup in the scoped queryset. A signed-in user with no
      project at all is refused (403) whatever the key; otherwise a key outside
      the visible projects, a missing one included, is not found (404). */
  function ProjectLookup(db: Db, r: Requester, a: Action, pk: ProjectId, u: Unknowns): (res: Result<ProjectId, Failure>)
    requires a.OnObject()
    ensures res.Ok? ==> res.value == pk
    ensures res.Ok? <==>
      r.SignedIn? && pk in db.projects && (r.IsStaff() || IsMember(db.contributors, r.id, pk))
    ensures r.Anonymous? ==> res == Err(NotAuthenticated)
    ensures r.IsStaff() && pk !in db.projects ==> res == Err(NotFound)
    ensures r.SignedIn? && !r.IsStaff() && !(exists q :: q in db.projects && IsMember(db.contributors, r.id, q)) ==>
      res == Err(PermissionDenied)
    ensures (r.SignedIn? && !r.IsStaff() && (exists q :: q in db.projects && IsMember(db.contributors, r.id, q)) &&
             !(pk in db.projects && IsMember(db.contributors, r.id, pk))) ==>
      res == Err(NotFound)
  {
    match CheckPermissions(ProjectPermissions(a), r, u)
    case Deny(f) => Err(f)
    case Allow =>
      match VisibleProjects(db, r)
      case Err(f) => Err(f)
      case Ok(visible) => if pk !in visible then Err(NotFound) else Ok(pk)
  }

  /** A detail action on one project, as written: after the lookup, the object
      stage runs the project's classes, so a change needs the manager check
      that tests the role "manager". A lookup refusal is returned as it is; a
      failed manager check is a 403. */
  function ProjectDetail(db: Db, r: Requester, a: Action, pk: ProjectId, u: Unknowns): (res: Result<ProjectId, Failure>)
    requires a.OnObject()
    ensures res.Ok? ==> res.value == pk
    ensures res.Ok? <==>
      ProjectLookup(db, r, a, pk, u).Ok? && (a.Mutates() ==> IsProjectManagerOrAdmin(r, db.contributors, pk))
    ensures ProjectLookup(db, r, a, pk, u).Err? ==> res == ProjectLookup(db, r, a, pk, u)
    ensures ProjectLookup(db, r, a, pk, u).Ok? && a.Mutates() && !IsProjectManagerOrAdmin(r, db.contributors, pk) ==>
      res == Err(PermissionDenied)
  {
    match ProjectLookup(db, r, a, pk, u)
    case Err(f) => Err(f)
    case Ok(_) =>
      match CheckObjectPermissions(ProjectPermissions(a), r, db.contributors, ProjectTarget(pk), u)
      case Deny(f) => Err(f)
      case Allow => Ok(pk)
  }

  /** The same action with the manager check as evidently intended: the role
      tested is the one project creation writes. */
  function ProjectDetailIntended(db: Db, r: Requester, a: Action, pk: ProjectId, u: Unknowns): (res: Result<ProjectId, Failure>)
    requires a.OnObject()
    ensures res.Ok? ==> res.value == pk
    ensures res.Ok? <==>
      ProjectLookup(db, r, a, pk, u).Ok? && (a.Mutates() ==> IsProjectManagerOrAdminIntended(r, db.contributors, pk))
    ensures ProjectLookup(db, r, a, pk, u).Err? ==> res == ProjectLookup(db, r, a, pk, u)
    ensures ProjectLookup(db, r, a, pk, u).Ok? && a.Mutates() && !IsProjectManagerOrAdminIntended(r, db.contributors, pk) ==>
      res == Err(PermissionDenied)
  {
    match ProjectLookup(db, r, a, pk, u)
    case Err(f) => Err(f)
    case Ok(_) =>
      if a.Mutates() && !IsProjectManagerOrAdminIntended(r, db.contributors, pk) then Err(Refusal(r))
      else Ok(pk)
  }

  /** The creator's PATCH or DELETE on their own project: refused as written,
      allowed as intended. */
  lemma CreatorChangeAsWrittenAndIntended(db: Db, r: Requester, a: Action, pk: ProjectId, c: ContributorId, u: Unknowns)
    requires UniqueMembership(db.contributors)
    requires r.SignedIn? && !r.IsSuperuser() && a.Mutates() && pk in db.projects
    requires c in db.contributors && db.contributors[c] == Contributor(r.id, pk, CreatorRole)
    ensures ProjectDetail(db, r, a, pk, u) == Err(PermissionDenied)
    ensures ProjectDetailIntended(db, r, a, pk, u) == Ok(pk)
  {
    assert IsMember(db.contributors, r.id, pk);
    CreatorFailsManagerCheck(r, db.contributors, pk, c);
  }

  datatype ProjectPayload = ProjectPayload(name: string, description: Option<string>, kind: ProjectType)

  /** Creating a project saves it with the requester as author, then adds the
      requester as a contributor with the role "MANAGER". The requester is then
      a contributor of the new project, lists it, and passes the intended
      manager check on it; the check as written refuses them unless they are a
      superuser. */
  method CreateProject(store: Store, requester: UserId, payload: ProjectPayload) returns (res: Result<ProjectId, Failure>)
    requires store.Valid() && requester in store.users
    modifies store
    ensures store.Valid()
    ensures res.Ok? <==> ProjectFieldsValid(Project(payload.name, payload.description, payload.kind, requester))
    ensures res.Err? ==> res.error == ValidationError && store.Snapshot() == old(store.Snapshot())
    ensures res.Ok? ==>
      res.value !in old(store.projects) &&
      store.projects == old(store.projects)[res.value := Project(payload.name, payload.description, payload.kind, requester)]
    ensures res.Ok? ==>
      exists c: ContributorId :: c !in old(store.contributors) &&
        store.contributors == old(store.contributors)[c := Contributor(requester, res.value, CreatorRole)]
    ensures store.users == old(store.users) && store.issues == old(store.issues) && store.comments == old(store.comments)
    ensures res.Ok? ==>
      var me := SignedIn(requester, store.users[requester]);
      VisibleProjects(store.Snapshot(), me).Ok? && res.value in VisibleProjects(store.Snapshot(), me).value &&
      IsProjectManagerOrAdminIntended(me, store.contributors, res.value)
    ensures res.Ok? && !store.users[requester].isSuperuser ==>
      !IsProjectManagerOrAdmin(SignedIn(requester, store.users[requester]), store.contributors, res.value)
  {
    var project := Project(payload.name, payload.description, payload.kind, requester);
    if !ProjectFieldsValid(project) {
      return Err(ValidationError);
    }
    var id := store.InsertProject(project);
    assert !IsMember(store.contributors, requester, id);
    var c := store.InsertContributor(Contributor(requester, id, CreatorRole));
    assert store.contributors[c] == Contributor(requester, id, CreatorRole);
    assert IsMember(store.contributors, requester, id);
    if !store.users[requester].isSuperuser {
      CreatorFailsManagerCheck(SignedIn(requester, store.users[requester]), store.contributors, id, c);
    }
    res := Ok(id);
  }

  // ---------------------------------------------------------------------
  // Issues
  // ---------------------------------------------------------------------

  /** Creating, listing and reading need the project-contributor check;
      changing or deleting needs the author check. */
  function IssuePermissions(a: Action): (checks: seq<Check>)
    ensures (DefaultClasses in checks) <==> a == Metadata
    ensures a != Metadata ==> |checks| == 2 && checks[0] == IsAuthenticated
    ensures (ProjectContributorOrAdmin in checks) <==> a in {Create, List, Retrieve}
    ensures (AuthorOrAdmin in checks) <==> a.Mutates()
    ensures a != Metadata ==> forall r, u :: CheckPermissions(checks, r, u) == Allow <==>
      r.SignedIn? && (if a.Mutates() then u.authorOrAdmin.onRequest else u.projectContributorOrAdmin.onRequest)
  {
    if a == Create then [IsAuthenticated, ProjectContributorOrAdmin]
    else if a.Mutates() then [IsAuthenticated, AuthorOrAdmin]
    else if a in {Retrieve, List} then [IsAuthenticated, ProjectContributorOrAdmin]
    else [DefaultClasses]
  }

  /** The issue queryset: refused without a project in the URL or when that
      project does not exist, otherwise the issues of that project. */
  function ScopedIssues(db: Db, projectPk: Option<ProjectId>): (res: Result<set<IssueId>, Failure>)
    ensures res.Ok? <==> projectPk.Some? && projectPk.value in db.projects
    ensures res.Err? ==> res.error == PermissionDenied
    ensures res.Ok? ==> forall i :: i in res.value <==> i in db.issues && db.issues[i].project == projectPk.value
  {
    match projectPk
    case None => Err(PermissionDenied)
    case Some(p) =>
      if p !in db.projects then Err(PermissionDenied)
      else Ok(set i | i in db.issues && db.issues[i].project == p)
  }

  /** One issue under a project: found only when it belongs to the URL's
      project, and refused (403, not 404) otherwise. */
  function FindIssue(db: Db, projectPk: Option<ProjectId>, issuePk: IssueId): (res: Result<IssueId, Failure>)
    ensures res.Ok? <==>
      projectPk.Some? && projectPk.value in db.projects &&
      issuePk in db.issues && db.issues[issuePk].project == projectPk.value
    ensures res.Ok? ==> res.value == issuePk
    ensures res.Err? ==> res.error == PermissionDenied
  {
    match ScopedIssues(db, projectPk)
    case Err(f) => Err(f)
    case Ok(scoped) => if issuePk in scoped then Ok(issuePk) else Err(PermissionDenied)
  }

  function IssueList(db: Db, r: Requester, projectPk: Option<ProjectId>, u: Unknowns): (res: Result<set<IssueId>, Failure>)
    ensures res.Ok? <==>
      r.SignedIn? && u.projectContributorOrAdmin.onRequest && ScopedIssues(db, projectPk).Ok?
    ensures res.Ok? ==> res == ScopedIssues(db, projectPk)
    ensures r.Anonymous? ==> res == Err(NotAuthenticated)
    ensures res.Err? ==> res.error == Refusal(r) || res.error == PermissionDenied
  {
    match CheckPermissions(IssuePermissions(List), r, u)
    case Deny(f) => Err(f)
    case Allow => ScopedIssues(db, projectPk)
  }

  /** A detail action on one issue. The overridden lookup never runs the object
      stage, so only the request-stage answers matter. */
  function IssueDetail(db: Db, r: Requester, a: Action, projectPk: Option<ProjectId>, issuePk: IssueId, u: Unknowns): (res: Result<IssueId, Failure>)
    requires a.OnObject()
    ensures res.Ok? <==>
      CheckPermissions(IssuePermissions(a), r, u) == Allow && FindIssue(db, projectPk, issuePk).Ok?
    ensures res.Ok? ==> res.value == issuePk && projectPk.Some? && db.issues[issuePk].project == projectPk.value
    ensures res.Err? ==> res.error == Refusal(r) || res.error == PermissionDenied
  {
    match CheckPermissions(IssuePermissions(a), r, u)
    case Deny(f) => Err(f)
    case Allow => FindIssue(db, projectPk, issuePk)
  }

  /** The answers the undefined classes would give on a loaded issue or comment
      never change the outcome. */
  lemma NestedDetailIgnoresObjectStage(db: Db, r: Requester, a: Action, projectPk: Option<ProjectId>,
                                       issuePk: IssueId, commentPk: CommentId, u: Unknowns, u': Unknowns)
    requires a.OnObject()
    requires u.projectContributorOrAdmin.onRequest == u'.projectContributorOrAdmin.onRequest
    requires u.authorOrAdmin.onRequest == u'.authorOrAdmin.onRequest
    ensures IssueDetail(db, r, a, projectPk, issuePk, u) == IssueDetail(db, r, a, projectPk, issuePk, u')
    ensures CommentDetail(db, r, a, projectPk, Some(issuePk), commentPk, u) ==
            CommentDetail(db, r, a, projectPk, Some(issuePk), commentPk, u')
  {
  }

  // ---------------------------------------------------------------------
  // Comments
  // ---------------------------------------------------------------------

  function CommentPermissions(a: Action): (checks: seq<Check>)
    ensures (DefaultClasses in checks) <==> a == Metadata
    ensures a != Metadata ==> |checks| == 2 && checks[0] == IsAuthenticated
    ensures (ProjectContributorOrAdmin in checks) <==> a in {Create, List, Retrieve}
    ensures (AuthorOrAdmin in checks) <==> a.Mutates()
  {
    if a in {Create, List, Retrieve} then [IsAuthenticated, ProjectContributorOrAdmin]
    else if a.Mutates() then [IsAuthenticated, AuthorOrAdmin]
    else [DefaultClasses]
  }

  /** The comment queryset: refused when the URL's project does not exist, or
      its issue does not exist in that project; otherwise that issue's comments. */
  function ScopedComments(db: Db, projectPk: Option<ProjectId>, issuePk: Option<IssueId>): (res: Result<set<CommentId>, Failure>)
    ensures res.Ok? <==>
      projectPk.Some? && projectPk.value in db.projects &&
      issuePk.Some? && issuePk.value in db.issues && db.issues[issuePk.value].project == projectPk.value
    ensures res.Err? ==> res.error == PermissionDenied
    ensures res.Ok? ==> forall m :: m in res.value <==> m in db.comments && db.comments[m].issue == issuePk.value
  {
    if projectPk.None? || projectPk.value !in db.projects then Err(PermissionDenied)
    else if issuePk.None? || issuePk.value !in db.issues || db.issues[issuePk.value].project != projectPk.value then
      Err(PermissionDenied)
    else Ok(set m | m in db.comments && db.comments[m].issue == issuePk.value)
  }

  /** One comment: found only among the comments of an issue of the URL's project. */
  function FindComment(db: Db, projectPk: Option<ProjectId>, issuePk: Option<IssueId>, commentPk: CommentId): (res: Result<CommentId, Failure>)
    ensures res.Ok? ==> res.value == commentPk && commentPk in db.comments
    ensures res.Ok? <==>
      ScopedComments(db, projectPk, issuePk).Ok? && commentPk in db.comments &&
      db.comments[commentPk].issue == issuePk.value
    ensures res.Ok? ==> db.issues[db.comments[commentPk].issue].project == projectPk.value
    ensures res.Err? ==> res.error == PermissionDenied
  {
    match ScopedComments(db, projectPk, issuePk)
    case Err(f) => Err(f)
    case Ok(scoped) => if commentPk in scoped then Ok(commentPk) else Err(PermissionDenied)
  }

  function CommentList(db: Db, r: Requester, projectPk: Option<ProjectId>, issuePk: Option<IssueId>, u: Unknowns): (res: Result<set<CommentId>, Failure>)
    ensures res.Ok? <==>
      r.SignedIn? && u.projectContributorOrAdmin.onRequest && ScopedComments(db, projectPk, issuePk).Ok?
    ensures res.Ok? ==> res == ScopedComments(db, projectPk, issuePk)
    ensures r.Anonymous? ==> res == Err(NotAuthenticated)
    ensures res.Err? ==> res.error == Refusal(r) || res.error == PermissionDenied
  {
    match CheckPermissions(CommentPermissions(List), r, u)
    case Deny(f) => Err(f)
    case Allow => ScopedComments(db, projectPk, issuePk)
  }

  /** A detail action on one comment; as for issues, no object stage runs. */
  function CommentDetail(db: Db, r: Requester, a: Action, projectPk: Option<ProjectId>, issuePk: Option<IssueId>,
                         commentPk: CommentId, u: Unknowns): (res: Result<CommentId, Failure>)
    requires a.OnObject()
    ensures res.Ok? <==>
      CheckPermissions(CommentPermissions(a), r, u) == Allow && FindComment(db, projectPk, issuePk, commentPk).Ok?
    ensures res.Ok? ==>
      res.value == commentPk && db.comments[commentPk].issue == issuePk.value &&
      db.issues[issuePk.value].project == projectPk.value
    ensures res.Err? ==> res.error == Refusal(r) || res.error == PermissionDenied
  {
    match CheckPermissions(CommentPermissions(a), r, u)
    case Deny(f) => Err(f)
    case Allow => FindComment(db, projectPk, issuePk, commentPk)
  }

  /** A comment payload names its author and its issue. */
  datatype CommentPayload = CommentPayload(description: string, author: UserId, issue: IssueId)

  /** Creating a comment validates the payload (its author and issue must
      exist), then saves it with the requester as author, whoever the payload
      names. The URL's project and issue are not consulted. */
  method CreateComment(store: Store, requester: UserId, payload: CommentPayload) returns (res: Result<CommentId, Failure>)
    requires store.Valid() && requester in store.users
    modifies store
    ensures store.Valid()
    ensures res.Ok? <==>
      payload.author in old(store.users) && payload.issue in old(store.issues) &&
      RequiredText(payload.description, DescriptionMaxLength)
    ensures res.Err? ==> res.error == ValidationError && store.Snapshot() == old(store.Snapshot())
    ensures res.Ok? ==>
      res.value !in old(store.comments) &&
      store.comments == old(store.comments)[res.value := Comment(payload.description, requester, payload.issue)]
    ensures store.users == old(store.users) && store.projects == old(store.projects)
    ensures store.contributors == old(store.contributors) && store.issues == old(store.issues)
  {
    if payload.author !in store.users || payload.issue !in store.issues ||
       !RequiredText(payload.description, DescriptionMaxLength) {
      return Err(ValidationError);
    }
    var id := store.InsertComment(Comment(payload.description, requester, payload.issue));
    res := Ok(id);
  }

  /** The fields a comment change sends: PUT sends all three, PATCH any of them. */
  datatype CommentChange = CommentChange(description: Option<string>, author: Option<UserId>, issue: Option<IssueId>)

  /** The serializer's validation of a change: PUT needs every field, and every
      field sent must be valid (a description within its width, an existing
      author, an existing issue, of any project). */
  predicate ChangeAccepted(db: Db, a: Action, ch: CommentChange)
  {
    (a == Update ==> ch.description.Some? && ch.author.Some? && ch.issue.Some?) &&
    (ch.description.Some? ==> RequiredText(ch.description.value, DescriptionMaxLength)) &&
    (ch.author.Some? ==> ch.author.value in db.users) &&
    (ch.issue.Some? ==> ch.issue.value in db.issues)
  }

  /** Changing a comment (PUT or PATCH): the request stage and the nested lookup
      of `CommentDetail`, then the serializer's validation, then the fields
      sent overwrite the stored ones. Unlike creation, the author is not
      replaced by the requester, and the issue may be one of another project. */
  method ChangeComment(store: Store, r: Requester, a: Action, projectPk: Option<ProjectId>, issuePk: Option<IssueId>,
                       commentPk: CommentId, ch: CommentChange, u: Unknowns) returns (res: Result<CommentId, Failure>)
    requires store.Valid() && (a == Update || a == PartialUpdate)
    modifies store
    ensures store.Valid()
    ensures res.Ok? <==>
      CommentDetail(old(store.Snapshot()), r, a, projectPk, issuePk, commentPk, u).Ok? &&
      ChangeAccepted(old(store.Snapshot()), a, ch)
    ensures CommentDetail(old(store.Snapshot()), r, a, projectPk, issuePk, commentPk, u).Err? ==>
      res == CommentDetail(old(store.Snapshot()), r, a, projectPk, issuePk, commentPk, u)
    ensures CommentDetail(old(store.Snapshot()), r, a, projectPk, issuePk, commentPk, u).Ok? && res.Err? ==>
      res.error == ValidationError
    ensures res.Err? ==> store.Snapshot() == old(store.Snapshot())
    ensures res.Ok? ==>
      res.value == commentPk &&
      var before := old(store.comments)[commentPk];
      store.comments == old(store.comments)[commentPk := Comment(
        if ch.description.Some? then ch.description.value else before.description,
        if ch.author.Some? then ch.author.value else before.author,
        if ch.issue.Some? then ch.issue.value else before.issue)]
    ensures store.users == old(store.users) && store.projects == old(store.projects)
    ensures store.contributors == old(store.contributors) && store.issues == old(store.issues)
  {
    var found := CommentDetail(store.Snapshot(), r, a, projectPk, issuePk, commentPk, u);
    if found.Err? {
      return found;
    }
    if !ChangeAccepted(store.Snapshot(), a, ch) {
      return Err(ValidationError);
    }
    var before := store.comments[commentPk];
    var m := Comment(
      if ch.description.Some? then ch.description.value else before.description,
      if ch.author.Some? then ch.author.value else before.author,
      if ch.issue.Some? then ch.issue.value else before.issue);
    store.ReplaceComment(commentPk, m);
    res := Ok(commentPk);
  }
}
