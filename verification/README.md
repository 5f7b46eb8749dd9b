# SoftDesk authorization and scoping, in Dafny

SoftDesk is an issue-tracking REST backend. Users create projects, add contributors to
them, and file issues and comments under them. This project models the part of it that
decides who may do what and which rows a request can reach. It covers:

- the permission classes;
- the per-action choice of those classes in each view set;
- the way the REST framework applies them (`has_permission` on every request,
  `has_object_permission` only when a handler loads one object; a refusal is a 401 for
  an anonymous request and a 403 otherwise, given an authentication class that sends
  a challenge, see `Permissions.Refusal` under "Left out");
- the querysets and nested lookups that scope projects, issues, comments and
  contributor records to the URL;
- the operations that change the database: `User.save` and bulk account creation,
  project creation with its creator record, comment creation and change, adding and
  removing contributors, and the `on_delete=CASCADE` rules.

Modules:

- `Models` holds the records, choice sets, field widths and defaults, the `User.save`
  guards, the database as a value (`Db`), its integrity predicates and the cascade.
- `Database` holds `Store`, a class with one map per table and one shared key
  sequence. Its inserts and its delete keep the integrity predicates.
- `Permissions` holds the three permission classes and the framework's evaluation of
  a list of classes.
- `ApplicationViews` holds the project, issue and comment endpoints.
- `UserViews` holds the account and contributor endpoints.

Two permission classes the views import from softdesk/common/permissions.py,
`IsProjectContributorOrAdmin` and `IsAuthorOrAdmin`, are not defined in that module. The default permission classes
come from settings that are not part of this model. The answers of all three are
per-request booleans (`Permissions.Unknowns`): each member that depends on them says so,
and `ApplicationViews.NestedDetailIgnoresObjectStage` shows where they cannot matter.

The declared `Contributor` model has no `role` column, yet project creation writes one
and the manager check filters on one. The model gives contributor records a `role`
field so that both sides can be stated. Against the real schema, the creation would
fail on an unexpected keyword and the filter on an unknown field.

Where the system's design description and its code differ, the model follows the code:

- An issue or comment outside the URL's project or issue is refused with 403, not 404
  (`FindIssue`, `FindComment`).
- Nothing checks that an issue's assignee is a contributor of the issue's project
  (`Models.Consistent` only asks that the record exists).
- Project creation runs two separate inserts with no transaction (`CreateProject`).
- Adding and removing contributors never run the manager check, because neither
  handler loads a record through `get_object` (`ContributorRequest`).
- Removing a contributor record also deletes the issues assigned to it and their
  comments (`RemoveContributor`), because of the cascade on `Issue.assignee`.
- Whether an author who is no longer a contributor may edit their issue depends on the
  undefined `IsAuthorOrAdmin` class and the overridden lookups. Those lookups run no
  object check at all (`NestedDetailIgnoresObjectStage`).
- A comment change keeps the author the payload names and may move the comment under
  an issue of another project (`ChangeComment`).

## Model

| member | source | states |
|---|---|---|
| Models.ProjectTypeCode | softdesk/application/models.py:7-16 | every project type code is non-empty and fits the 10-character column |
| Models.ParseProjectType | softdesk/application/models.py:7-16 | a code is accepted exactly when it is BACKEND, FRONTEND, IOS or ANDROID, and maps back to itself |
| Models.PriorityCode | softdesk/application/models.py:29-33 | every priority code fits the 10-character column |
| Models.ParsePriority | softdesk/application/models.py:29-33 | accepted exactly for LOW, MEDIUM, HIGH, and maps back to the code |
| Models.TagCode | softdesk/application/models.py:35-39 | every tag code fits the 10-character column |
| Models.ParseTag | softdesk/application/models.py:35-39 | accepted exactly for BUG, TASK, FEATURE, and maps back to the code |
| Models.StatusCode | softdesk/application/models.py:41-51 | every status code fits the 11-character column, which IN_PROGRESS fills exactly |
| Models.ParseStatus | softdesk/application/models.py:41-51 | accepted exactly for TO_DO, IN_PROGRESS, DONE, and maps back to the code |
| Models.ChoiceCodesRoundTrip | softdesk/application/models.py:7-51 | storing any choice as its code and validating the code gives the same choice back |
| Models.NewUser | softdesk/user/models.py:11-13 | a new account has age 18, cannot be contacted, shares no data and has no admin flags |
| Models.NewIssue | softdesk/application/models.py:51 | a new issue without a given status is TO_DO; every other field is as given |
| Models.ProjectFieldsValid | softdesk/application/models.py:14-15 | defines a storable project: a non-empty name of at most 100 characters and an absent description or one of at most 400 |
| Models.IssueFieldsValid | softdesk/application/models.py:47-48 | defines a storable issue: the same name and description bounds as a project |
| Models.CommentFieldsValid | softdesk/application/models.py:68 | defines a storable comment: a non-empty description of at most 400 characters |
| Models.SaveRejection | softdesk/user/models.py:15-20 | `save` refuses exactly an empty username, and otherwise exactly a non-zero age below 15; age 0 passes |
| Models.DefaultUserSaves | softdesk/user/models.py:11-20 | an account with a username and default fields passes the `save` guards |
| Models.Consistent | softdesk/application/models.py:17-70 | defines the foreign-key guarantee: every author, project, assignee, user and issue a row names exists |
| Models.UniqueMembership | softdesk/user/models.py:28-29 | defines `unique_together = ('user', 'project')`: at most one contributor record per pair |
| Models.WellFormed | softdesk/application/models.py:14-68 | defines the field guarantee: every stored project, issue and comment is within its widths, and every stored account passed `save` (softdesk/user/models.py:15-20) |
| Models.Doomed | softdesk/application/models.py:17-70 | every directly deleted row is among the rows the deletion removes |
| Models.Cascade | softdesk/application/models.py:17-70 | after a deletion, every surviving row is unchanged and no directly deleted row survives |
| Models.CascadeSurvivors | softdesk/application/models.py:52-70 | a row survives exactly when it was not deleted directly and every row it references survives |
| Models.CascadePreservesIntegrity | softdesk/user/models.py:25-29 | a cascade leaves no dangling foreign key and keeps one record per (user, project) |
| Models.DeleteUserRemovesOwnedRows | softdesk/application/models.py:17-69 | deleting a user removes their projects, contributor records, issues and comments |
| Models.DeleteProjectRemovesChildren | softdesk/application/models.py:53-70 | deleting a project removes its contributor records, issues and their comments, and no user |
| Models.DeleteContributorRemovesAssignedIssues | softdesk/application/models.py:54-70 | deleting a contributor record removes only that record, every issue assigned to it and their comments |
| Models.DeleteIssueRemovesComments | softdesk/application/models.py:70 | deleting an issue removes only that issue and its comments |
| Database.AddUserKeepsIntegrity | softdesk/user/models.py:15-20 | adding an account that passed `save` under a fresh key keeps every integrity guarantee |
| Database.AddProjectKeepsIntegrity | softdesk/application/models.py:14-17 | adding a valid project by an existing author keeps every integrity guarantee |
| Database.AddContributorKeepsIntegrity | softdesk/user/models.py:25-29 | adding a record for a new (user, project) pair keeps one record per pair |
| Database.AddIssueKeepsIntegrity | softdesk/application/models.py:47-55 | adding a valid issue whose foreign keys exist keeps every integrity guarantee |
| Database.AddCommentKeepsIntegrity | softdesk/application/models.py:68-70 | adding a valid comment whose author and issue exist keeps every integrity guarantee |
| Database.Store.constructor | softdesk/user/models.py:10-29 | an empty database satisfies every integrity guarantee |
| Database.Store.SaveUser | softdesk/user/models.py:15-20 | a rejected account changes nothing and reports the guard that failed; an accepted one is stored under a new key |
| Database.Store.InsertProject | softdesk/application/models.py:14-17 | the project is stored under a new key and no other table changes |
| Database.Store.InsertContributor | softdesk/user/models.py:23-29 | the record is stored under a new key and one record per (user, project) still holds |
| Database.Store.InsertIssue | softdesk/application/models.py:47-55 | the issue is stored under a new key and no other table changes |
| Database.Store.InsertComment | softdesk/application/models.py:68-70 | the comment is stored under a new key and no other table changes |
| Database.ReplaceCommentKeepsIntegrity | softdesk/application/models.py:68-70 | overwriting a comment with valid fields whose author and issue exist keeps every integrity guarantee |
| Database.Store.ReplaceComment | softdesk/application/models.py:68-70 | the comment keeps its key and takes the new fields; no other table changes |
| Database.Store.Delete | softdesk/application/models.py:17-70 | the database becomes the cascade of the deletion, and integrity holds afterwards |
| Permissions.RoleRecords | softdesk/common/permissions.py:24 | defines `obj.contributors.filter(user=..., role=...)`: the records of the project for that user with that role |
| Permissions.MemberRecords | softdesk/common/permissions.py:37 | defines `obj.contributors.filter(user=...)`: the records of the project for that user |
| Permissions.Refusal | softdesk/application/views.py:47-57 | a refused permission is 401 exactly for an anonymous request and 403 exactly for a signed-in one, as the documented responses say, assuming an authentication class that sends a challenge |
| Permissions.IsAccountOwnerOrAdmin | softdesk/common/permissions.py:8-10 | allows exactly a superuser or the account the request acts on |
| Permissions.IsProjectManagerOrAdmin | softdesk/common/permissions.py:18-24 | a superuser passes; anyone else passes exactly with a record in the project whose role is "manager" |
| Permissions.IsProjectManagerOrAdminIntended | softdesk/common/permissions.py:18-24 | as above, with the role project creation writes |
| Permissions.IsContributorOrAdmin | softdesk/common/permissions.py:32-37 | a superuser passes; anyone else passes exactly with a record in the project, whatever its role |
| Permissions.ManagerIsContributor | softdesk/common/permissions.py:18-37 | whoever passes a manager check passes the contributor check on the same project |
| Permissions.CreatorFailsManagerCheck | softdesk/common/permissions.py:24 | a non-superuser whose only record in the project has role "MANAGER" fails the manager check |
| Permissions.CreatorPassesIntendedManagerCheck | softdesk/common/permissions.py:18-24 | that record passes the intended check |
| Permissions.HasPermission | softdesk/common/permissions.py:4-37 | the request stage: the three defined classes always allow it, IsAuthenticated needs a user, IsAdminUser needs staff |
| Permissions.HasObjectPermission | softdesk/common/permissions.py:4-24 | the object stage of the owner and manager classes is their `has_object_permission` as written (the manager class tests "manager"); the framework's classes allow every object |
| Permissions.CheckPermissions | softdesk/application/views.py:16-27 | a request passes exactly when every class allows it, and is otherwise refused with 401 or 403 |
| Permissions.CheckObjectPermissions | softdesk/application/views.py:16-27 | an object passes exactly when every class allows it, and is otherwise refused with 401 or 403 |
| ApplicationViews.ProjectPermissions | softdesk/application/views.py:23-27 | create, retrieve and list need exactly a signed-in user; changes also pass the object stage exactly when the manager check as written allows; only other actions use the defaults |
| ApplicationViews.MemberProjects | softdesk/application/views.py:70 | defines `Project.objects.filter(contributors__user=...)`: the projects holding a record of the user |
| ApplicationViews.VisibleProjects | softdesk/application/views.py:65-73 | anonymous is refused, staff see every project, others see exactly their projects, and none is a refusal rather than an empty list |
| ApplicationViews.ListingAgreesWithContributorCheck | softdesk/application/views.py:65-73 | for a non-admin, the listing is exactly the projects the contributor check allows |
| ApplicationViews.SuperuserWithoutStaffIsRefused | softdesk/application/views.py:68-72 | a superuser without staff or records passes every contributor check yet is refused the listing |
| ApplicationViews.ProjectList | softdesk/application/views.py:60-73 | anonymous gets 401; a signed-in user gets the visible projects |
| ApplicationViews.ProjectLookup | softdesk/application/views.py:65-73 | 401 for anonymous; 403 for a user with no project whatever the key; otherwise 404 for any key outside the visible projects, a missing one included; reached exactly when the project exists and the user is staff or a contributor of it |
| ApplicationViews.ProjectDetail | softdesk/application/views.py:23-27 | after the lookup, a change is allowed exactly when the manager check as written ("manager") allows, and is otherwise a 403; lookup refusals pass through |
| ApplicationViews.ProjectDetailIntended | softdesk/common/permissions.py:18-24 | the same action with the manager check testing the role creation writes |
| ApplicationViews.CreatorChangeAsWrittenAndIntended | softdesk/application/views.py:115-127 | a non-superuser creator's PATCH or DELETE on their project is a 403 as written and allowed as intended |
| ApplicationViews.CreateProject | softdesk/application/views.py:115-127 | the project is stored with the requester as author along with a "MANAGER" record; the creator then lists it and passes the intended check but not the check as written |
| ApplicationViews.IssuePermissions | softdesk/application/views.py:316-329 | create, list and retrieve need the project-contributor class, changes need the author class, both after authentication |
| ApplicationViews.ScopedIssues | softdesk/application/views.py:279-295 | a missing or unknown URL project is a 403; otherwise exactly the issues of that project |
| ApplicationViews.FindIssue | softdesk/application/views.py:302-314 | an issue is found exactly when it belongs to the URL project; otherwise 403, not 404 |
| ApplicationViews.IssueList | softdesk/application/views.py:279-295 | the list is the scoped issues once the request stage passes; anonymous gets 401, and any other refusal is a 403 |
| ApplicationViews.IssueDetail | softdesk/application/views.py:302-314 | an issue is reached exactly when the request stage passes and the lookup finds it in the URL project |
| ApplicationViews.NestedDetailIgnoresObjectStage | softdesk/application/views.py:501-512 | the object-stage answers of the unknown classes never change an issue or comment outcome |
| ApplicationViews.CommentPermissions | softdesk/application/views.py:514-519 | create, list and retrieve need the project-contributor class, changes need the author class |
| ApplicationViews.ScopedComments | softdesk/application/views.py:481-499 | refused unless the URL issue exists in the URL project; then exactly that issue's comments |
| ApplicationViews.FindComment | softdesk/application/views.py:501-512 | a comment is found only under an issue of the URL project; otherwise 403 |
| ApplicationViews.CommentList | softdesk/application/views.py:540-543 | the list is the scoped comments once the request stage passes; anonymous gets 401, and any other refusal is a 403 |
| ApplicationViews.CommentDetail | softdesk/application/views.py:501-512 | a comment is reached exactly when the request stage passes and the nested lookup finds it |
| ApplicationViews.CreateComment | softdesk/application/views.py:587-591 | a valid payload stores a comment whose author is the requester, whatever author the payload names |
| ApplicationViews.ChangeAccepted | softdesk/application/serializers.py:17-20 | defines the serializer's validation of a change: PUT sends every field, a description within 400 characters, an existing author and an existing issue |
| ApplicationViews.ChangeComment | softdesk/application/views.py:613-638 | a change succeeds exactly when the nested lookup and the serializer's validation pass; the fields sent overwrite the stored ones (author and issue included); any refusal leaves the store as it was |
| UserViews.UserPermissions | softdesk/user/views.py:19-26 | anyone may create; changes need the owner check; listing needs staff; only retrieve and other actions use the defaults |
| UserViews.UserList | softdesk/user/views.py:24-29 | staff get every account; everyone else gets 401 or 403 |
| UserViews.UserDetail | softdesk/user/views.py:19-29 | a change reaches an account exactly when it exists and the requester owns it or is a superuser; a missing account is 404 even to anonymous; an existing one is 401 to anonymous and 403 to a signed-in user who is neither; every failure is a permission refusal or a 404 |
| UserViews.Records | softdesk/user/views.py:33-36 | a request carries one account or a list of them |
| UserViews.MissingName | softdesk/user/views.py:38 | defines the serializer's refusal: some record has no username |
| UserViews.AcceptedPrefix | softdesk/user/views.py:38-40 | counts the records before the first one `save` refuses |
| UserViews.CreateUsers | softdesk/user/views.py:31-41 | a missing username is a 400 that saves nothing; otherwise the records up to the first under-age one are stored as given |
| UserViews.AnyoneMayCreateSuperuser | softdesk/user/views.py:20-21 | an anonymous request passes the permission stage of account creation, and a superuser account is accepted |
| UserViews.ContributorPermissions | softdesk/user/views.py:47-52 | create and changes need the manager class, list needs the project-contributor class |
| UserViews.ContributorExposes | softdesk/user/views.py:46 | defines `http_method_names = ['get', 'post', 'delete']`: list, retrieve, create and destroy |
| UserViews.ContributorRequest | softdesk/user/views.py:46-52 | PUT, PATCH and OPTIONS never pass, failing on permission or else with 405; create and delete pass for any signed-in user |
| UserViews.ScopedContributors | softdesk/user/views.py:95-100 | exactly the records of the URL project, or every record when none is given |
| UserViews.ContributorList | softdesk/user/views.py:91-100 | the scoped records once the request stage passes |
| UserViews.ContributorDetail | softdesk/user/views.py:91-100 | a record is reached only inside the scoped records, through the default classes; every failure is a permission refusal or a 404 |
| UserViews.AddContributor | softdesk/user/views.py:103-119 | fails with 400 and no change when the project is missing or the pair exists; on success exactly one record links the user to the URL project |
| UserViews.LookupContributor | softdesk/user/views.py:130 | a lookup by primary key finds the record only inside the project; a lookup by `id`, which the model does not have, is a 500 |
| UserViews.DestroyLookupAsWrittenFails | softdesk/user/views.py:130-135 | the removal lookup as written fails with 500 even for a record of the URL project |
| UserViews.RemoveContributor | softdesk/user/views.py:121-139 | outside the URL project: 404 and nothing deleted; otherwise only that record, its assigned issues and their comments go |

## Left out

- Serializers are left out: field-level validation beyond the widths and choices above,
  output shapes and pagination. `ProjectDetailSerializer`, `ProjectListSerializer`,
  `IssueListSerializer` and `IssueDetailSerializer` are imported by
  softdesk/application/views.py from the application serializers, which do not define
  them. The handlers that rely on them
  (project and issue create, retrieve and update bodies) are modelled only as far as
  permissions, scoping and the store change.
- Issue creation, and project and issue updates, are left out. Their bodies are the
  framework's defaults over the undefined serializers above. Their permission and
  lookup stages are modelled by `ProjectDetail` and `IssueDetail`, and deletions by
  `Store.Delete`. Comment updates use the defined `CommentSerializer` and are modelled
  by `ChangeComment`.
- Passwords, JWT authentication, routing and the API documentation decorators are left
  out. URL parameters are arguments, and the requester is a `Requester` value.
- Ordering by `created_time` and the timestamps themselves are left out. Sets are
  unordered.
- Comment keys are UUIDs in the source. Here every table draws keys from one counter;
  only freshness matters.
- Username uniqueness, which comes from the framework's user model, is not modelled.
- Transactions are not modelled. Project creation runs two inserts in sequence, and
  no request interleaves with them here.
- Permissions.Refusal: the authentication classes come from settings that are not part
  of this model. The 401 for an anonymous request assumes the first of them sends an
  authentication challenge, as the views' Bearer security and documented 401 responses
  suggest. Under the framework's default, whose first class is session authentication
  and sends none, every refusal would be a 403.
- Permissions.Unknowns: `IsProjectContributorOrAdmin`, `IsAuthorOrAdmin` and the default
  classes are uninterpreted booleans rather than code.
- Permissions.HasObjectPermission: on an object that is not a project, the source's
  manager and contributor checks would raise for a non-superuser (500). The model
  refuses instead. No view set reaches that case.
- UserViews.LookupContributor: only two lookup names are modelled, the primary key
  (`pk` or `contributor_id`) and the `id` the removal handler uses. Other names a
  contributor filter resolves (`user`, `project__id`, suffixed lookups such as
  `pk__exact`, and so on) are outside its domain. The listing's filter by project
  (softdesk/user/views.py:98) is `ScopedContributors`, and the creation's check by
  (project, user) is part of `AddContributor`.
- UserViews.CreateUsers: the `MissingUsername` guard of `save` is unreachable through it,
  because the serializer refuses an empty username first. A `save` refusal raises a
  Django validation error that the framework does not translate, hence the 500.
- The `role` field is an addition, explained above. A record added through the
  contributor endpoint has the empty role (`UserViews.UnsetRole`).
- Contributor retrieve runs only the default classes. It is modelled, but those classes
  are unknowns.

## Findings

| source | as written | input that shows it | evidently intended | confidence | as-written member | corrected member |
|---|---|---|---|---|---|---|
| softdesk/common/permissions.py:24 | the manager check filters on role "manager", while project creation (softdesk/application/views.py:126) writes "MANAGER" | a user who is not a superuser creates a project, then sends PATCH or DELETE to it | the creator passes the manager check on their own project | high, assuming the role column compares case-sensitively (the default of SQLite and PostgreSQL; MySQL's default collations do not), not executed | ApplicationViews.CreatorChangeAsWrittenAndIntended | ApplicationViews.ProjectDetailIntended |
| softdesk/user/views.py:130 | contributor removal looks the record up by `id`, but the model's primary key is `contributor_id`, so the lookup raises a field error | DELETE of an existing contributor record of the URL project | look the record up by primary key: 404 outside the project, otherwise delete it | high, not executed | UserViews.DestroyLookupAsWrittenFails | UserViews.RemoveContributor |
