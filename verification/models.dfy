/**
  The persistent entities of the tracker (users, projects, contributor
  records, issues, comments), their field constraints and defaults, the
  guards `User.save` applies before persisting, and the `on_delete=CASCADE`
  rules declared between them.

  A database is a value `Db` of five tables keyed by primary key.
*/
module Models {
  import opened Wrappers

  type UserId = nat
  type ProjectId = nat
  type ContributorId = nat
  type IssueId = nat
  /** Comments are keyed by a UUID in the source; any fresh key will do here. */
  type CommentId = nat

  // ---------------------------------------------------------------------
  // Choice sets and their stored codes
  // ---------------------------------------------------------------------

  datatype ProjectType = Backend | Frontend | Ios | Android
  datatype Priority = Low | Medium | High
  datatype Tag = Bug | Task | Feature
  datatype Status = ToDo | InProgress | Done

  /** Column widths of the choice fields. */
  const ProjectTypeMaxLength := 10
  const PriorityMaxLength := 10
  const TagMaxLength := 10
  const StatusMaxLength := 11

  /** The code a project type is stored as; every code fits its column. */
  function ProjectTypeCode(t: ProjectType): (code: string)
    ensures 0 < |code| <= ProjectTypeMaxLength
  {
    match t
    case Backend => "BACKEND"
    case Frontend => "FRONTEND"
    case Ios => "IOS"
    case Android => "ANDROID"
  }

  /** Choice validation of the `type` field: only the four codes are accepted. */
  function ParseProjectType(code: string): (t: Option<ProjectType>)
    ensures t.Some? <==> code in {"BACKEND", "FRONTEND", "IOS", "ANDROID"}
    ensures t.Some? ==> ProjectTypeCode(t.value) == code
  {
    if code == "BACKEND" then Some(Backend)
    else if code == "FRONTEND" then Some(Frontend)
    else if code == "IOS" then Some(Ios)
    else if code == "ANDROID" then Some(Android)
    else None
  }

  function PriorityCode(p: Priority): (code: string)
    ensures 0 < |code| <= PriorityMaxLength
  {
    match p
    case Low => "LOW"
    case Medium => "MEDIUM"
    case High => "HIGH"
  }

  function ParsePriority(code: string): (p: Option<Priority>)
    ensures p.Some? <==> code in {"LOW", "MEDIUM", "HIGH"}
    ensures p.Some? ==> PriorityCode(p.value) == code
  {
    if code == "LOW" then Some(Low)
    else if code == "MEDIUM" then Some(Medium)
    else if code == "HIGH" then Some(High)
    else None
  }

  function TagCode(t: Tag): (code: string)
    ensures 0 < |code| <= TagMaxLength
  {
    match t
    case Bug => "BUG"
    case Task => "TASK"
    case Feature => "FEATURE"
  }

  function ParseTag(code: string): (t: Option<Tag>)
    ensures t.Some? <==> code in {"BUG", "TASK", "FEATURE"}
    ensures t.Some? ==> TagCode(t.value) == code
  {
    if code == "BUG" then Some(Bug)
    else if code == "TASK" then Some(Task)
    else if code == "FEATURE" then Some(Feature)
    else None
  }

  /** "IN_PROGRESS" is exactly as long as the 11-character status column. */
  function StatusCode(s: Status): (code: string)
    ensures 0 < |code| <= StatusMaxLength
    ensures s == InProgress ==> |code| == StatusMaxLength
  {
    match s
    case ToDo => "TO_DO"
    case InProgress => "IN_PROGRESS"
    case Done => "DONE"
  }

  function ParseStatus(code: string): (s: Option<Status>)
    ensures s.Some? <==> code in {"TO_DO", "IN_PROGRESS", "DONE"}
    ensures s.Some? ==> StatusCode(s.value) == code
  {
    if code == "TO_DO" then Some(ToDo)
    else if code == "IN_PROGRESS" then Some(InProgress)
    else if code == "DONE" then Some(Done)
    else None
  }

  /** Storing a choice and reading it back gives the same choice. */
  lemma ChoiceCodesRoundTrip(t: ProjectType, p: Priority, g: Tag, s: Status)
    ensures ParseProjectType(ProjectTypeCode(t)) == Some(t)
    ensures ParsePriority(PriorityCode(p)) == Some(p)
    ensures ParseTag(TagCode(g)) == Some(g)
    ensures ParseStatus(StatusCode(s)) == Some(s)
  {
    match t
    case Backend =>
    case Frontend =>
    case Ios =>
    case Android =>
  }

  // ---------------------------------------------------------------------
  // Records
  // ---------------------------------------------------------------------

  datatype User = User(
    username: string,
    age: nat,
    canBeContacted: bool,
    canDataBeShared: bool,
    isStaff: bool,
    isSuperuser: bool)

  /** A contributor record links a user to a project. The declared model has no
      `role` column, yet the views write and read one; it is modelled as a field. */
  datatype Contributor = Contributor(user: UserId, project: ProjectId, role: string)

  /** `type` is a Dafny keyword, hence `kind`. */
  datatype Project = Project(name: string, description: Option<string>, kind: ProjectType, author: UserId)

  datatype Issue = Issue(
    name: string,
    description: Option<string>,
    priority: Priority,
    tag: Tag,
    status: Status,
    author: UserId,
    project: ProjectId,
    assignee: ContributorId)

  datatype Comment = Comment(description: string, author: UserId, issue: IssueId)

  const NameMaxLength := 100
  const DescriptionMaxLength := 400
  const DefaultAge := 18

  /** A user built from a username alone takes the declared defaults. */
  function NewUser(username: string): (u: User)
    ensures u.username == username
    ensures u.age == DefaultAge && !u.canBeContacted && !u.canDataBeShared
    ensures !u.isStaff && !u.isSuperuser
  {
    User(username, DefaultAge, false, false, false, false)
  }

  /** A new issue whose status is not given starts as TO_DO. No view here
      builds issues (their creation goes through serializers the application's
      serializer module does not define); this states the column default on its
      own. */
  function NewIssue(name: string, description: Option<string>, priority: Priority, tag: Tag,
                    status: Option<Status>, author: UserId, project: ProjectId, assignee: ContributorId): (i: Issue)
    ensures i.status == (if status.Some? then status.value else ToDo)
    ensures i.author == author && i.project == project && i.assignee == assignee
    ensures i.name == name && i.description == description && i.priority == priority && i.tag == tag
  {
    Issue(name, description, priority, tag, match status case Some(s) => s case None => ToDo,
          author, project, assignee)
  }

  // ---------------------------------------------------------------------
  // Field constraints
  // ---------------------------------------------------------------------

  /** A required CharField: present, not blank, within its width. */
  predicate RequiredText(s: string, maxLength: nat) {
    0 < |s| <= maxLength
  }

  /** An optional CharField (`null=True, blank=True`): absent, or within its width. */
  predicate OptionalText(s: Option<string>, maxLength: nat) {
    s.None? || |s.value| <= maxLength
  }

  predicate ProjectFieldsValid(p: Project) {
    RequiredText(p.name, NameMaxLength) && OptionalText(p.description, DescriptionMaxLength)
  }

  predicate IssueFieldsValid(i: Issue) {
    RequiredText(i.name, NameMaxLength) && OptionalText(i.description, DescriptionMaxLength)
  }

  predicate CommentFieldsValid(c: Comment) {
    RequiredText(c.description, DescriptionMaxLength)
  }

  // ---------------------------------------------------------------------
  // User.save
  // ---------------------------------------------------------------------

  datatype SaveError = MissingUsername | UnderAge

  const MinimumAge := 15

  /** The guards `User.save` runs before persisting, in order. An age of 0 is
      falsy in the source's `self.age and ...`, so it is not rejected. */
  function SaveRejection(u: User): (e: Option<SaveError>)
    ensures e.None? <==> |u.username| > 0 && (u.age == 0 || u.age >= MinimumAge)
    ensures e == Some(MissingUsername) <==> u.username == []
    ensures e == Some(UnderAge) <==> |u.username| > 0 && 0 < u.age < MinimumAge
  {
    if u.username == [] then Some(MissingUsername)
    else if u.age != 0 && u.age < MinimumAge then Some(UnderAge)
    else None
  }

  /** The defaults alone never trip the age guard. */
  lemma DefaultUserSaves(username: string)
    requires username != []
    ensures SaveRejection(NewUser(username)) == None
  {
  }

  // ---------------------------------------------------------------------
  // The database and its integrity
  // ---------------------------------------------------------------------

  datatype Db = Db(
    users: map<UserId, User>,
    projects: map<ProjectId, Project>,
    contributors: map<ContributorId, Contributor>,
    issues: map<IssueId, Issue>,
    comments: map<CommentId, Comment>)

  /** Every foreign key points at an existing row. The assignee of an issue
      need not belong to the issue's project: nothing enforces that. */
  predicate Consistent(db: Db) {
    (forall p :: p in db.projects ==> db.projects[p].author in db.users) &&
    (forall c :: c in db.contributors ==>
      db.contributors[c].user in db.users && db.contributors[c].project in db.projects) &&
    (forall i :: i in db.issues ==>
      db.issues[i].author in db.users && db.issues[i].project in db.projects &&
      db.issues[i].assignee in db.contributors) &&
    (forall m :: m in db.comments ==>
      db.comments[m].author in db.users && db.comments[m].issue in db.issues)
  }

  /** `unique_together = ('user', 'project')`. */
  predicate UniqueMembership(contributors: map<ContributorId, Contributor>) {
    forall a, b ::
      (a in contributors && b in contributors &&
       contributors[a].user == contributors[b].user &&
       contributors[a].project == contributors[b].project) ==> a == b
  }

  /** `user` is a contributor of `project` whatever the role. */
  predicate IsMember(contributors: map<ContributorId, Contributor>, user: UserId, project: ProjectId) {
    exists c :: c in contributors && contributors[c].user == user && contributors[c].project == project
  }

  /** Every row passed its model's checks before it was stored. */
  predicate WellFormed(db: Db) {
    (forall u :: u in db.users ==> SaveRejection(db.users[u]).None?) &&
    (forall p :: p in db.projects ==> ProjectFieldsValid(db.projects[p])) &&
    (forall i :: i in db.issues ==> IssueFieldsValid(db.issues[i])) &&
    (forall m :: m in db.comments ==> CommentFieldsValid(db.comments[m]))
  }

  // ---------------------------------------------------------------------
  // on_delete=CASCADE
  // ---------------------------------------------------------------------

  /** Rows deleted directly, one set per table. */
  datatype Seed = Seed(
    users: set<UserId>,
    projects: set<ProjectId>,
    contributors: set<ContributorId>,
    issues: set<IssueId>,
    comments: set<CommentId>)

  function UserSeed(u: UserId): Seed { Seed({u}, {}, {}, {}, {}) }
  function ProjectSeed(p: ProjectId): Seed { Seed({}, {p}, {}, {}, {}) }
  function ContributorSeed(c: ContributorId): Seed { Seed({}, {}, {c}, {}, {}) }
  function IssueSeed(i: IssueId): Seed { Seed({}, {}, {}, {i}, {}) }
  function CommentSeed(m: CommentId): Seed { Seed({}, {}, {}, {}, {m}) }

  /** The rows a deletion removes. The foreign keys run from comments to
      issues and users, from issues to users, projects and contributors,
      from contributors to users and projects, and from projects to users;
      every one of them cascades, and following them in that order once
      reaches every dependent row. */
  function Doomed(db: Db, seed: Seed): (d: Seed)
    ensures seed.users <= d.users && seed.projects <= d.projects && seed.contributors <= d.contributors
    ensures seed.issues <= d.issues && seed.comments <= d.comments
  {
    var du := seed.users;
    var dp := seed.projects + (set p | p in db.projects && db.projects[p].author in du);
    var dc := seed.contributors +
      (set c | c in db.contributors && (db.contributors[c].user in du || db.contributors[c].project in dp));
    var di := seed.issues +
      (set i | i in db.issues &&
        (db.issues[i].author in du || db.issues[i].project in dp || db.issues[i].assignee in dc));
    var dm := seed.comments +
      (set m | m in db.comments && (db.comments[m].author in du || db.comments[m].issue in di));
    Seed(du, dp, dc, di, dm)
  }

  /** The database after deleting `seed` and everything that cascades from it.
      Surviving rows are untouched and no seeded row survives. */
  function Cascade(db: Db, seed: Seed): (r: Db)
    ensures forall u :: u in r.users ==> u in db.users && r.users[u] == db.users[u]
    ensures forall p :: p in r.projects ==> p in db.projects && r.projects[p] == db.projects[p]
    ensures forall c :: c in r.contributors ==> c in db.contributors && r.contributors[c] == db.contributors[c]
    ensures forall i :: i in r.issues ==> i in db.issues && r.issues[i] == db.issues[i]
    ensures forall m :: m in r.comments ==> m in db.comments && r.comments[m] == db.comments[m]
    ensures r.users.Keys !! seed.users && r.projects.Keys !! seed.projects
    ensures r.contributors.Keys !! seed.contributors && r.issues.Keys !! seed.issues
    ensures r.comments.Keys !! seed.comments
  {
    var d := Doomed(db, seed);
    Db(db.users - d.users, db.projects - d.projects, db.contributors - d.contributors,
       db.issues - d.issues, db.comments - d.comments)
  }

  /** On a consistent database a row survives a cascade exactly when it was not
      deleted directly and every row it references survives: the cascade
      deletes the dependents and nothing more. */
  lemma CascadeSurvivors(db: Db, seed: Seed)
    requires Consistent(db)
    ensures var r := Cascade(db, seed);
      (forall u :: u in db.users ==> (u in r.users <==> u !in seed.users)) &&
      (forall p :: p in db.projects ==>
        (p in r.projects <==> p !in seed.projects && db.projects[p].author in r.users)) &&
      (forall c :: c in db.contributors ==>
        (c in r.contributors <==>
          (c !in seed.contributors &&
           db.contributors[c].user in r.users && db.contributors[c].project in r.projects))) &&
      (forall i :: i in db.issues ==>
        (i in r.issues <==>
          (i !in seed.issues && db.issues[i].author in r.users &&
           db.issues[i].project in r.projects && db.issues[i].assignee in r.contributors))) &&
      (forall m :: m in db.comments ==>
        (m in r.comments <==>
          (m !in seed.comments &&
           db.comments[m].author in r.users && db.comments[m].issue in r.issues)))
  {
  }

  /** A cascade never leaves a dangling foreign key, keeps the unique
      membership and leaves only rows that were well formed. */
  lemma CascadePreservesIntegrity(db: Db, seed: Seed)
    requires Consistent(db)
    ensures Consistent(Cascade(db, seed))
    ensures UniqueMembership(db.contributors) ==> UniqueMembership(Cascade(db, seed).contributors)
    ensures WellFormed(db) ==> WellFormed(Cascade(db, seed))
  {
    CascadeSurvivors(db, seed);
  }

  /** Deleting a user removes the user's account, authored projects, contributor
      records, authored issues and authored comments. */
  lemma DeleteUserRemovesOwnedRows(db: Db, u: UserId)
    ensures var r := Cascade(db, UserSeed(u));
      u !in r.users &&
      (forall p :: p in r.projects ==> r.projects[p].author != u) &&
      (forall c :: c in r.contributors ==> r.contributors[c].user != u) &&
      (forall i :: i in r.issues ==> r.issues[i].author != u) &&
      (forall m :: m in r.comments ==> r.comments[m].author != u)
  {
  }

  /** Deleting a project removes its contributor records, its issues and their
      comments, and no user. */
  lemma DeleteProjectRemovesChildren(db: Db, p: ProjectId)
    requires Consistent(db)
    ensures var r := Cascade(db, ProjectSeed(p));
      p !in r.projects && r.users == db.users &&
      (forall c :: c in r.contributors ==> r.contributors[c].project != p) &&
      (forall i :: i in r.issues ==> r.issues[i].project != p) &&
      (forall m :: m in r.comments ==> db.issues[r.comments[m].issue].project != p)
  {
    CascadeSurvivors(db, ProjectSeed(p));
  }

  /** Deleting a contributor record removes that record only among contributor
      records, every issue assigned to it and those issues' comments; users and
      projects are untouched. */
  lemma DeleteContributorRemovesAssignedIssues(db: Db, c: ContributorId)
    requires Consistent(db)
    ensures var r := Cascade(db, ContributorSeed(c));
      r.users == db.users && r.projects == db.projects &&
      r.contributors == db.contributors - {c} &&
      (forall i :: i in r.issues ==> r.issues[i].assignee != c) &&
      (forall m :: m in r.comments ==> db.issues[r.comments[m].issue].assignee != c)
  {
    CascadeSurvivors(db, ContributorSeed(c));
  }

  /** Deleting an issue removes its comments and nothing above it. */
  lemma DeleteIssueRemovesComments(db: Db, i: IssueId)
    requires Consistent(db)
    ensures var r := Cascade(db, IssueSeed(i));
      r.users == db.users && r.projects == db.projects && r.contributors == db.contributors &&
      r.issues == db.issues - {i} &&
      (forall m :: m in r.comments ==> r.comments[m].issue != i)
  {
    CascadeSurvivors(db, IssueSeed(i));
  }
}
