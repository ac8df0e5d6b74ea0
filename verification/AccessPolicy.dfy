// Project access (src/access-policy/project-access-policy.service.ts): a query filter that
// selects projects and tasks, and a level and action computation that must agree with it.
module AccessPolicy {
  import opened Seqs
  import opened Text
  import opened Users

  datatype Membership = Membership(userId: string, role: Option<string>)

  datatype Project = Project(
    id: string, tenantId: string, archived: bool, visibility: Visibility,
    members: seq<Membership>, team: Option<seq<string>>)

  datatype Task = Task(
    id: string, tenantId: string, projectId: string,
    reporterId: Option<string>, assignees: seq<string>, watchers: seq<string>)

  datatype Level =
    | TENANT_ADMIN | PROJECT_ADMIN | TASK_ADMIN | PROJECT_OWNER | PROJECT_MANAGER | PROJECT_EDITOR
    | PROJECT_CONTRIBUTOR | PROJECT_VIEWER | CLIENT | TEAM_MEMBER | TASK_PARTICIPANT | TENANT_VIEWER | NO_ACCESS

  datatype Action =
    | ViewProject | EditProject | ArchiveProject | RestoreProject | DeleteProject | ManageMembers
    | ViewBoard | ManageBoardColumns | ManageSprints | ManageMilestones | ManageRisks
    | ViewBudget | ManageBudget | CreateTasks | EditTasks | MoveTasks | DeleteTasks | CommentTasks
    | ManageFiles | ViewPrivateFiles

  const ALL_ACTIONS: set<Action> := {
    ViewProject, EditProject, ArchiveProject, RestoreProject, DeleteProject, ManageMembers,
    ViewBoard, ManageBoardColumns, ManageSprints, ManageMilestones, ManageRisks,
    ViewBudget, ManageBudget, CreateTasks, EditTasks, MoveTasks, DeleteTasks, CommentTasks,
    ManageFiles, ViewPrivateFiles
  }

  const GLOBAL: set<string> := {"manage:all", "manage:tenant", "manage:projects"}

  // ---------- The query filter ----------

  predicate OpenToTenant(p: Project) {
    p.visibility in {WORKSPACE, ORGANIZATION, PUBLIC}
  }

  predicate Involved(user: User, t: Task) {
    t.reporterId == Some(user.id) || user.id in t.assignees || user.id in t.watchers
  }

  predicate IsMember(user: User, p: Project) {
    exists m :: m in p.members && m.userId == user.id
  }

  predicate OnTeam(user: User, p: Project) {
    p.team.Some? && user.id in p.team.value
  }

  // projectAccessWhere, read against one project row and the task table.
  predicate ProjectSelected(user: User, p: Project, tasks: seq<Task>) {
    && p.tenantId == user.tenantId
    && (HasAny(user, GLOBAL)
        || OpenToTenant(p) || IsMember(user, p) || OnTeam(user, p)
        || (exists t :: t in tasks && t.projectId == p.id && t.reporterId == Some(user.id))
        || (exists t :: t in tasks && t.projectId == p.id && user.id in t.assignees)
        || (exists t :: t in tasks && t.projectId == p.id && user.id in t.watchers))
  }

  // taskAccessWhere, read against one task row and its project.
  predicate TaskSelected(user: User, t: Task, p: Project, tasks: seq<Task>) {
    && t.tenantId == user.tenantId
    && (HasAny(user, GLOBAL) || Involved(user, t) || ProjectSelected(user, p, tasks))
  }

  // ---------- The computed level ----------

  predicate IsSeparator(c: char) {
    IsSpace(c) || c == '-'
  }

  // .replace(/[\s-]+/g, '_'): each run of separators becomes one underscore.
  function Underscored(s: string): string {
    if s == "" then ""
    else if !IsSeparator(s[0]) then [s[0]] + Underscored(s[1..])
    else if |s| > 1 && IsSeparator(s[1]) then Underscored(s[1..])
    else "_" + Underscored(s[1..])
  }

  function NormalizedText(role: string): string {
    Upper(Underscored(Trim(role)))
  }

  datatype ProjectRole = OWNER | MANAGER | EDITOR | VIEWER | CLIENT_ROLE | CONTRIBUTOR

  function NormalizeProjectRole(role: Option<string>): ProjectRole {
    var n := NormalizedText(role.GetOr("CONTRIBUTOR"));
    if n in ["OWNER", "PROJECT_OWNER", "ADMIN"] then OWNER
    else if n in ["MANAGER", "PROJECT_MANAGER", "LEAD", "DELIVERY_MANAGER"] then MANAGER
    else if n in ["EDITOR", "MAINTAINER"] then EDITOR
    else if n in ["VIEWER", "READ_ONLY", "READONLY", "OBSERVER"] then VIEWER
    else if n in ["CLIENT", "STAKEHOLDER", "EXTERNAL"] then CLIENT_ROLE
    else CONTRIBUTOR
  }

  function IsUser(user: User): Membership -> bool {
    (m: Membership) => m.userId == user.id
  }

  function Concerning(user: User, p: Project): Task -> bool {
    (t: Task) => t.projectId == p.id && Involved(user, t)
  }

  // The tasks of getProjectPolicyContext: those that involve the user, at most one of them.
  function ContextTasks(user: User, p: Project, tasks: seq<Task>): seq<Task> {
    Take(Filter(tasks, Concerning(user, p)), 1)
  }

  function LevelOfRole(role: ProjectRole): Level {
    match role
    case OWNER => PROJECT_OWNER
    case MANAGER => PROJECT_MANAGER
    case EDITOR => PROJECT_EDITOR
    case CLIENT_ROLE => CLIENT
    case VIEWER => PROJECT_VIEWER
    case CONTRIBUTOR => PROJECT_CONTRIBUTOR
  }

  // The level of someone who is not a member of the project.
  function OutsideLevel(managesTasks: bool, onTeam: bool, participant: bool, open: bool): Level {
    if managesTasks && (onTeam || participant || open) then TASK_ADMIN
    else if onTeam then TEAM_MEMBER
    else if participant then TASK_PARTICIPANT
    else if open then TENANT_VIEWER
    else NO_ACCESS
  }

  // accessLevelFor
  function AccessLevel(user: User, p: Project, tasks: seq<Task>): Level {
    if HasAny(user, {"manage:all", "manage:tenant"}) then TENANT_ADMIN
    else if "manage:projects" in user.permissions then PROJECT_ADMIN
    else
      var member := FindFirst(p.members, IsUser(user));
      if member.Some? then LevelOfRole(NormalizeProjectRole(member.value.role))
      else OutsideLevel("manage:tasks" in user.permissions, OnTeam(user, p), |ContextTasks(user, p, tasks)| > 0,
                        OpenToTenant(p))
  }

  // ---------- The action matrix ----------

  // The matrix read by action: which levels an action takes.
  predicate LevelAllows(level: Level, a: Action) {
    match a
    case ViewProject | ViewBoard => level != NO_ACCESS
    case DeleteProject => level in {TENANT_ADMIN, PROJECT_ADMIN, PROJECT_OWNER}
    case EditProject | ArchiveProject | RestoreProject | ManageMembers
       | ManageBoardColumns | ManageSprints | ViewBudget | ManageBudget =>
      level in {TENANT_ADMIN, PROJECT_ADMIN, PROJECT_OWNER, PROJECT_MANAGER}
    case ManageMilestones | ManageRisks =>
      level in {TENANT_ADMIN, PROJECT_ADMIN, PROJECT_OWNER, PROJECT_MANAGER, PROJECT_EDITOR}
    case DeleteTasks | ViewPrivateFiles =>
      level in {TENANT_ADMIN, PROJECT_ADMIN, PROJECT_OWNER, PROJECT_MANAGER, TASK_ADMIN}
    case CreateTasks | EditTasks | MoveTasks | ManageFiles =>
      level !in {PROJECT_VIEWER, CLIENT, TASK_PARTICIPANT, TENANT_VIEWER, NO_ACCESS}
    case CommentTasks =>
      level !in {PROJECT_VIEWER, TASK_PARTICIPANT, TENANT_VIEWER, NO_ACCESS}
  }

  // What an archived project still allows to someone without a global permission.
  predicate OutlivesArchive(a: Action) {
    a in {ViewProject, EditProject, ArchiveProject, RestoreProject, DeleteProject, ManageMembers, ViewBoard,
          CommentTasks, ViewPrivateFiles}
  }

  // An action is allowed when the level takes it, or it is commenting and the user holds the
  // comment permission and may see the project; an archived project narrows that down.
  predicate Allowed(user: User, archived: bool, level: Level, a: Action) {
    && (LevelAllows(level, a) || (a == CommentTasks && "comment:tasks" in user.permissions && level != NO_ACCESS))
    && (archived && !HasAny(user, GLOBAL) ==> OutlivesArchive(a))
  }

  function ActionSet(user: User, archived: bool, level: Level): set<Action> {
    set a | a in ALL_ACTIONS && Allowed(user, archived, level, a)
  }

  function Actions(user: User, p: Project, tasks: seq<Task>): set<Action> {
    ActionSet(user, p.archived, AccessLevel(user, p, tasks))
  }

  // The grants of actionsFor: the record of flags as the set of those that are on.
  method GrantsFor(accessLevel: Level) returns (actions: set<Action>)
    ensures actions == set a | a in ALL_ACTIONS && LevelAllows(accessLevel, a)
  {
    actions := {};
    if accessLevel in {TENANT_ADMIN, PROJECT_ADMIN, PROJECT_OWNER} {
      actions := actions + ALL_ACTIONS;
    } else if accessLevel == TASK_ADMIN {
      actions := actions + {ViewProject, ViewBoard, CreateTasks, EditTasks, MoveTasks, DeleteTasks, CommentTasks,
                            ManageFiles, ViewPrivateFiles};
    } else if accessLevel == PROJECT_MANAGER {
      actions := actions + {ViewProject, EditProject, ArchiveProject, RestoreProject, ManageMembers, ViewBoard,
        ManageBoardColumns, ManageSprints, ManageMilestones, ManageRisks, ViewBudget, ManageBudget,
        CreateTasks, EditTasks, MoveTasks, DeleteTasks, CommentTasks, ManageFiles, ViewPrivateFiles};
    } else if accessLevel == PROJECT_EDITOR {
      actions := actions + {ViewProject, ViewBoard, ManageMilestones, ManageRisks, CreateTasks, EditTasks, MoveTasks,
                            CommentTasks, ManageFiles};
    } else if accessLevel in {PROJECT_CONTRIBUTOR, TEAM_MEMBER} {
      actions := actions + {ViewProject, ViewBoard, CreateTasks, EditTasks, MoveTasks, CommentTasks, ManageFiles};
    } else if accessLevel == CLIENT {
      actions := actions + {ViewProject, ViewBoard, CommentTasks};
    } else if accessLevel in {PROJECT_VIEWER, TASK_PARTICIPANT, TENANT_VIEWER} {
      actions := actions + {ViewProject, ViewBoard};
    }
  }

  // actionsFor: after the grants, commenting may be switched on, and an archived project
  // switches flags off again.
  method ActionsFor(user: User, p: Project, accessLevel: Level) returns (actions: set<Action>)
    ensures actions == ActionSet(user, p.archived, accessLevel)
  {
    actions := GrantsFor(accessLevel);
    if "comment:tasks" in user.permissions && ViewProject in actions {
      actions := actions + {CommentTasks};
    }
    if p.archived && !HasAny(user, GLOBAL) {
      actions := actions - {CreateTasks, EditTasks, MoveTasks, DeleteTasks, ManageFiles, ManageBoardColumns,
        ManageSprints, ManageMilestones, ManageRisks, ViewBudget, ManageBudget};
    }
  }

  // getProjectPermissions: refused unless the computed actions include viewProject.
  method GetProjectPermissions(user: User, projects: map<string, Project>, projectId: string, tasks: seq<Task>)
    returns (r: Result<(Level, set<Action>), string>)
    ensures r.Ok? <==> projectId in projects && ProjectSelected(user, projects[projectId], tasks)
    ensures r.Ok? ==> r.value.0 == AccessLevel(user, projects[projectId], tasks)
    ensures r.Ok? ==> r.value.1 == Actions(user, projects[projectId], tasks)
  {
    if projectId !in projects || projects[projectId].tenantId != user.tenantId {
      return Err("Project not found");
    }
    var level := AccessLevel(user, projects[projectId], tasks);
    var actions := ActionsFor(user, projects[projectId], level);
    FilterAgreesWithCheck(user, projects[projectId], tasks);
    if ViewProject !in actions {
      return Err("You do not have access to this project");
    }
    return Ok((level, actions));
  }

  // ---------- Agreement ----------

  // The level is none exactly when no clause of the filter holds.
  lemma NoAccessIff(user: User, p: Project, tasks: seq<Task>)
    requires p.tenantId == user.tenantId
    ensures AccessLevel(user, p, tasks) != NO_ACCESS <==> ProjectSelected(user, p, tasks)
  {
    var member := FindFirst(p.members, IsUser(user));
    if m :| m in p.members && m.userId == user.id {
      assert IsUser(user)(m);
    }
    ParticipantIff(user, p, tasks);
  }

  lemma ParticipantIff(user: User, p: Project, tasks: seq<Task>)
    ensures |ContextTasks(user, p, tasks)| > 0 <==> exists t :: t in tasks && t.projectId == p.id && Involved(user, t)
  {
    var found := Filter(tasks, Concerning(user, p));
    if |found| > 0 {
      FilterMember(tasks, Concerning(user, p), found[0]);
    }
    if t :| t in tasks && t.projectId == p.id && Involved(user, t) {
      FilterMember(tasks, Concerning(user, p), t);
    }
  }

  // The query selects a project exactly when the computed actions include viewProject.
  lemma FilterAgreesWithCheck(user: User, p: Project, tasks: seq<Task>)
    requires p.tenantId == user.tenantId
    ensures ProjectSelected(user, p, tasks) <==> ViewProject in Actions(user, p, tasks)
  {
    NoAccessIff(user, p, tasks);
  }

  // The task query selects a task exactly when the project query selects its project.
  lemma TaskFilterFollowsProject(user: User, t: Task, p: Project, tasks: seq<Task>)
    requires t in tasks && t.projectId == p.id && t.tenantId == p.tenantId
    ensures TaskSelected(user, t, p, tasks) <==> ProjectSelected(user, p, tasks)
  {
  }

  // ---------- Permissions only add ----------

  // More permissions leave the level alone, or raise it to an administrator's.
  lemma MorePermissionsRaiseLevel(user: User, more: User, p: Project, tasks: seq<Task>)
    requires more.id == user.id && more.tenantId == user.tenantId && user.permissions <= more.permissions
    ensures var before, after := AccessLevel(user, p, tasks), AccessLevel(more, p, tasks);
            || after == before
            || after in {TENANT_ADMIN, PROJECT_ADMIN}
            || (after == TASK_ADMIN && before in {TEAM_MEMBER, TASK_PARTICIPANT, TENANT_VIEWER})
  {
    SameUserSameRows(user, more, p, tasks);
    assert HasAny(user, {"manage:all", "manage:tenant"}) ==> HasAny(more, {"manage:all", "manage:tenant"});
  }

  // So it never lowers what the level allows.
  lemma MorePermissionsAllowMore(user: User, more: User, p: Project, tasks: seq<Task>, a: Action)
    requires more.id == user.id && more.tenantId == user.tenantId && user.permissions <= more.permissions
    requires LevelAllows(AccessLevel(user, p, tasks), a)
    ensures LevelAllows(AccessLevel(more, p, tasks), a)
  {
    MorePermissionsRaiseLevel(user, more, p, tasks);
    RaisedLevelAllows(AccessLevel(user, p, tasks), AccessLevel(more, p, tasks), a);
  }

  lemma RaisedLevelAllows(before: Level, after: Level, a: Action)
    requires LevelAllows(before, a)
    requires after in {before, TENANT_ADMIN, PROJECT_ADMIN}
             || (after == TASK_ADMIN && before in {TEAM_MEMBER, TASK_PARTICIPANT, TENANT_VIEWER})
    ensures LevelAllows(after, a)
  {
  }

  lemma SameUserSameRows(user: User, more: User, p: Project, tasks: seq<Task>)
    requires more.id == user.id
    ensures FindFirst(p.members, IsUser(more)) == FindFirst(p.members, IsUser(user))
    ensures ContextTasks(user, p, tasks) == ContextTasks(more, p, tasks)
  {
    FilterAgree(tasks, Concerning(user, p), Concerning(more, p));
    SameIndex(p.members, IsUser(user), IsUser(more));
  }

  lemma {:induction false} SameIndex<T>(s: seq<T>, p: T -> bool, q: T -> bool)
    requires forall x :: p(x) == q(x)
    ensures IndexOf(s, p) == IndexOf(s, q)
  {
    if s != [] && !p(s[0]) {
      SameIndex(s[1..], p, q);
    }
  }

  // Adding permissions never removes an action, on archived projects too.
  lemma AddingPermissionsKeepsActions(user: User, more: User, p: Project, tasks: seq<Task>)
    requires more.id == user.id && more.tenantId == user.tenantId && user.permissions <= more.permissions
    ensures Actions(user, p, tasks) <= Actions(more, p, tasks)
  {
    forall a | a in Actions(user, p, tasks)
      ensures a in Actions(more, p, tasks)
    {
      if LevelAllows(AccessLevel(user, p, tasks), a) {
        MorePermissionsAllowMore(user, more, p, tasks, a);
      }
      if AccessLevel(user, p, tasks) != NO_ACCESS {
        MorePermissionsAllowMore(user, more, p, tasks, ViewProject);
      }
    }
  }

  // ---------- Role names ----------

  predicate Plain(s: string) {
    forall i :: 0 <= i < |s| ==> !IsSeparator(s[i])
  }

  lemma {:induction false} UnderscoredIsPlain(s: string)
    ensures Plain(Underscored(s))
  {
    if s != "" {
      UnderscoredIsPlain(s[1..]);
    }
  }

  lemma {:induction false} PlainIsKept(s: string)
    requires Plain(s)
    ensures Underscored(s) == s
  {
    if s != "" {
      PlainIsKept(s[1..]);
    }
  }

  // A role name once normalised stays as it is, so stored and normalised names get one role.
  lemma NormalizingTwiceIsOnce(role: string)
    ensures NormalizedText(NormalizedText(role)) == NormalizedText(role)
    ensures NormalizeProjectRole(Some(NormalizedText(role))) == NormalizeProjectRole(Some(role))
  {
    var n := NormalizedText(role);
    UnderscoredIsPlain(Trim(role));
    assert Plain(n);
    assert Trim(n) == n;
    PlainIsKept(n);
    assert Upper(n) == n;
  }
}
