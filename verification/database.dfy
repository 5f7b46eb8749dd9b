/**
  The in-memory store the views act on: five tables updated in place and one
  auto-increment sequence that hands out primary keys. Inserts stand for the
  ORM's `save`/`create`; `Delete` is the `on_delete=CASCADE` collector.
*/
module Database {
  import opened Wrappers
  import opened Models

  /** Every key of every table was handed out by the sequence. */
  predicate KeysBelow(db: Db, next: nat) {
    (forall k :: k in db.users ==> k < next) &&
    (forall k :: k in db.projects ==> k < next) &&
    (forall k :: k in db.contributors ==> k < next) &&
    (forall k :: k in db.issues ==> k < next) &&
    (forall k :: k in db.comments ==> k < next)
  }

  /** Adding a row under a fresh key keeps every integrity guarantee, provided
      the row's own foreign keys exist and it passed its checks. */
  lemma AddUserKeepsIntegrity(db: Db, next: nat, u: User)
    requires Consistent(db) && WellFormed(db) && KeysBelow(db, next)
    requires SaveRejection(u).None?
    ensures var db' := db.(users := db.users[next := u]);
      Consistent(db') && WellFormed(db') && KeysBelow(db', next + 1)
  {
  }

  lemma AddProjectKeepsIntegrity(db: Db, next: nat, p: Project)
    requires Consistent(db) && WellFormed(db) && KeysBelow(db, next)
    requires p.author in db.users && ProjectFieldsValid(p)
    ensures var db' := db.(projects := db.projects[next := p]);
      Consistent(db') && WellFormed(db') && KeysBelow(db', next + 1)
  {
  }

  lemma AddContributorKeepsIntegrity(db: Db, next: nat, c: Contributor)
    requires Consistent(db) && WellFormed(db) && KeysBelow(db, next)
    requires UniqueMembership(db.contributors)
    requires c.user in db.users && c.project in db.projects && !IsMember(db.contributors, c.user, c.project)
    ensures var db' := db.(contributors := db.contributors[next := c]);
      Consistent(db') && WellFormed(db') && KeysBelow(db', next + 1) &&
      UniqueMembership(db'.contributors)
  {
  }

  /** No modelled endpoint creates issues; this lemma and `Store.InsertIssue`
      keep the store complete, so that the cascades have issues to act on. */
  lemma AddIssueKeepsIntegrity(db: Db, next: nat, i: Issue)
    requires Consistent(db) && WellFormed(db) && KeysBelow(db, next)
    requires i.author in db.users && i.project in db.projects && i.assignee in db.contributors
    requires IssueFieldsValid(i)
    ensures var db' := db.(issues := db.issues[next := i]);
      Consistent(db') && WellFormed(db') && KeysBelow(db', next + 1)
  {
  }

  lemma AddCommentKeepsIntegrity(db: Db, next: nat, m: Comment)
    requires Consistent(db) && WellFormed(db) && KeysBelow(db, next)
    requires m.author in db.users && m.issue in db.issues && CommentFieldsValid(m)
    ensures var db' := db.(comments := db.comments[next := m]);
      Consistent(db') && WellFormed(db') && KeysBelow(db', next + 1)
  {
  }

  /** Overwriting a comment in place with valid fields whose foreign keys
      exist keeps every integrity guarantee. */
  lemma ReplaceCommentKeepsIntegrity(db: Db, next: nat, id: CommentId, m: Comment)
    requires Consistent(db) && WellFormed(db) && KeysBelow(db, next)
    requires id in db.comments && m.author in db.users && m.issue in db.issues && CommentFieldsValid(m)
    ensures var db' := db.(comments := db.comments[id := m]);
      Consistent(db') && WellFormed(db') && KeysBelow(db', next)
  {
  }

  class Store {
    var users: map<UserId, User>
    var projects: map<ProjectId, Project>
    var contributors: map<ContributorId, Contributor>
    var issues: map<IssueId, Issue>
    var comments: map<CommentId, Comment>
    var nextId: nat

    /** The tables as one value, for the pure views and predicates. */
    function Snapshot(): Db
      reads this
    {
      Db(users, projects, contributors, issues, comments)
    }

    /** The database's own guarantees: foreign keys, `unique_together`, and
        rows that passed their checks. */
    ghost predicate Valid()
      reads this
    {
      Consistent(Snapshot()) && UniqueMembership(contributors) &&
      WellFormed(Snapshot()) && KeysBelow(Snapshot(), nextId)
    }

    constructor ()
      ensures Valid()
      ensures users == map[] && projects == map[] && contributors == map[]
      ensures issues == map[] && comments == map[]
    {
      users, projects, contributors, issues, comments := map[], map[], map[], map[], map[];
      nextId := 0;
    }

    /** `User.save`: the guards run first; a rejected user leaves the store as it was. */
    method SaveUser(u: User) returns (res: Result<UserId, SaveError>)
      requires Valid()
      modifies this
      ensures Valid()
      ensures res.Err? <==> SaveRejection(u).Some?
      ensures res.Err? ==> res.error == SaveRejection(u).value && users == old(users)
      ensures res.Ok? ==> res.value !in old(users) && users == old(users)[res.value := u]
      ensures projects == old(projects) && contributors == old(contributors)
      ensures issues == old(issues) && comments == old(comments)
    {
      match SaveRejection(u)
      case Some(e) =>
        res := Err(e);
      case None =>
        AddUserKeepsIntegrity(Snapshot(), nextId, u);
        res := Ok(nextId);
        users := users[nextId := u];
        nextId := nextId + 1;
    }

    method InsertProject(p: Project) returns (id: ProjectId)
      requires Valid()
      requires p.author in users && ProjectFieldsValid(p)
      modifies this
      ensures Valid()
      ensures id !in old(projects) && projects == old(projects)[id := p]
      ensures users == old(users) && contributors == old(contributors)
      ensures issues == old(issues) && comments == old(comments)
    {
      AddProjectKeepsIntegrity(Snapshot(), nextId, p);
      id := nextId;
      projects := projects[id := p];
      nextId := nextId + 1;
    }

    /** The database rejects a second record for the same (user, project), so
        callers check first. */
    method InsertContributor(c: Contributor) returns (id: ContributorId)
      requires Valid()
      requires c.user in users && c.project in projects
      requires !IsMember(contributors, c.user, c.project)
      modifies this
      ensures Valid()
      ensures id !in old(contributors) && contributors == old(contributors)[id := c]
      ensures users == old(users) && projects == old(projects)
      ensures issues == old(issues) && comments == old(comments)
    {
      AddContributorKeepsIntegrity(Snapshot(), nextId, c);
      id := nextId;
      contributors := contributors[id := c];
      nextId := nextId + 1;
    }

    /** The assignee may be a contributor record of any project. No modelled
        endpoint calls this: issue creation is not part of this model. */
    method InsertIssue(i: Issue) returns (id: IssueId)
      requires Valid()
      requires i.author in users && i.project in projects && i.assignee in contributors
      requires IssueFieldsValid(i)
      modifies this
      ensures Valid()
      ensures id !in old(issues) && issues == old(issues)[id := i]
      ensures users == old(users) && projects == old(projects)
      ensures contributors == old(contributors) && comments == old(comments)
    {
      AddIssueKeepsIntegrity(Snapshot(), nextId, i);
      id := nextId;
      issues := issues[id := i];
      nextId := nextId + 1;
    }

    method InsertComment(m: Comment) returns (id: CommentId)
      requires Valid()
      requires m.author in users && m.issue in issues && CommentFieldsValid(m)
      modifies this
      ensures Valid()
      ensures id !in old(comments) && comments == old(comments)[id := m]
      ensures users == old(users) && projects == old(projects)
      ensures contributors == old(contributors) && issues == old(issues)
    {
      AddCommentKeepsIntegrity(Snapshot(), nextId, m);
      id := nextId;
      comments := comments[id := m];
      nextId := nextId + 1;
    }

    /** Saves an edited comment under its own key. */
    method ReplaceComment(id: CommentId, m: Comment)
      requires Valid()
      requires id in comments && m.author in users && m.issue in issues && CommentFieldsValid(m)
      modifies this
      ensures Valid()
      ensures comments == old(comments)[id := m]
      ensures users == old(users) && projects == old(projects)
      ensures contributors == old(contributors) && issues == old(issues)
    {
      ReplaceCommentKeepsIntegrity(Snapshot(), nextId, id, m);
      comments := comments[id := m];
    }

    /** Deletes the seeded rows and every row that cascades from them. */
    method Delete(seed: Seed)
      requires Valid()
      modifies this
      ensures Valid()
      ensures Snapshot() == Cascade(old(Snapshot()), seed)
    {
      var db := Cascade(Snapshot(), seed);
      CascadePreservesIntegrity(Snapshot(), seed);
      users, projects, contributors, issues, comments :=
        db.users, db.projects, db.contributors, db.issues, db.comments;
    }
  }
}
