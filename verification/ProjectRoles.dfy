// What each role, and each way into a project, may do (src/access-policy/
// project-access-policy.service.ts), read off the user, the project and the tasks.
module ProjectRoles {
  import opened Seqs
  import opened Text
  import opened Users
  import opened AccessPolicy

  // ---------- Facts about the user ----------

  predicate ManagesAll(user: User) {
    || "manage:all" in user.permissions || "manage:tenant" in user.permissions
    || "manage:projects" in user.permissions
  }

  predicate IsOpen(p: Project) {
    p.visibility == WORKSPACE || p.visibility == ORGANIZATION || p.visibility == PUBLIC
  }

  // The user's first membership of the project.
  ghost predicate HasMembership(user: User, p: Project, m: Membership) {
    exists i :: 0 <= i < |p.members| && p.members[i] == m && m.userId == user.id
      && forall j :: 0 <= j < i ==> p.members[j].userId != user.id
  }

  ghost predicate IsOutsider(user: User, p: Project) {
    forall m :: m in p.members ==> m.userId != user.id
  }

  predicate IsOnTeam(user: User, p: Project) {
    p.team.Some? && user.id in p.team.value
  }

  // The user reports, does or watches a task of the project.
  ghost predicate Participates(user: User, p: Project, tasks: seq<Task>) {
    exists t :: t in tasks && t.projectId == p.id
      && (t.reporterId == Some(user.id) || user.id in t.assignees || user.id in t.watchers)
  }

  // ---------- The names of roles ----------

  predicate NamesOwner(name: string) {
    name == "OWNER" || name == "PROJECT_OWNER" || name == "ADMIN"
  }

  predicate NamesManager(name: string) {
    name == "MANAGER" || name == "PROJECT_MANAGER" || name == "LEAD" || name == "DELIVERY_MANAGER"
  }

  predicate NamesEditor(name: string) {
    name == "EDITOR" || name == "MAINTAINER"
  }

  predicate NamesViewer(name: string) {
    name == "VIEWER" || name == "READ_ONLY" || name == "READONLY" || name == "OBSERVER"
  }

  predicate NamesClient(name: string) {
    name == "CLIENT" || name == "STAKEHOLDER" || name == "EXTERNAL"
  }

  // The role a normalised name stands for; any other name is a contributor's.
  predicate IsNamed(name: string, role: ProjectRole) {
    if NamesOwner(name) then role == OWNER
    else if NamesManager(name) then role == MANAGER
    else if NamesEditor(name) then role == EDITOR
    else if NamesViewer(name) then role == VIEWER
    else if NamesClient(name) then role == CLIENT_ROLE
    else role == CONTRIBUTOR
  }

  lemma ListsOfNames(n: string)
    ensures n in ["OWNER", "PROJECT_OWNER", "ADMIN"] <==> NamesOwner(n)
    ensures n in ["MANAGER", "PROJECT_MANAGER", "LEAD", "DELIVERY_MANAGER"] <==> NamesManager(n)
    ensures n in ["EDITOR", "MAINTAINER"] <==> NamesEditor(n)
    ensures n in ["VIEWER", "READ_ONLY", "READONLY", "OBSERVER"] <==> NamesViewer(n)
    ensures n in ["CLIENT", "STAKEHOLDER", "EXTERNAL"] <==> NamesClient(n)
  {
  }

  lemma RoleIsNamed(role: Option<string>)
    ensures IsNamed(NormalizedText(if role.Some? then role.value else "CONTRIBUTOR"), NormalizeProjectRole(role))
  {
    ListsOfNames(NormalizedText(role.GetOr("CONTRIBUTOR")));
  }

  lemma {:induction false} UnderscoredWord(s: string, rest: string)
    requires Plain(s)
    ensures Underscored(s + rest) == s + Underscored(rest)
    decreases |s|
  {
    if s == "" {
      assert s + rest == rest;
    } else {
      assert (s + rest)[1..] == s[1..] + rest;
      UnderscoredWord(s[1..], rest);
    }
  }

  lemma {:induction false} UnderscoredGap(gap: string, rest: string)
    requires gap != "" && (forall i :: 0 <= i < |gap| ==> IsSeparator(gap[i]))
    requires rest != "" ==> !IsSeparator(rest[0])
    ensures Underscored(gap + rest) == "_" + Underscored(rest)
    decreases |gap|
  {
    assert (gap + rest)[1..] == gap[1..] + rest;
    assert |gap| > 1 ==> (gap + rest)[1] == gap[1];
    assert |gap| == 1 && rest != "" ==> (gap + rest)[1] == rest[0];
    if |gap| == 1 {
      assert gap[1..] + rest == rest;
    } else {
      UnderscoredGap(gap[1..], rest);
    }
  }

  // A name of two words is the two in capitals, joined by one underscore, whatever spaces and
  // dashes stand between them; a name of one word is that word in capitals.
  lemma NamesAreJoined(a: string, gap: string, b: string)
    requires Plain(a) && Plain(b) && a != "" && b != "" && gap != ""
    requires forall i :: 0 <= i < |gap| ==> IsSeparator(gap[i])
    ensures NormalizedText(a) == Upper(a)
    ensures NormalizedText(a + gap + b) == Upper(a) + "_" + Upper(b)
  {
    var s := a + (gap + b);
    assert a + gap + b == s;
    assert s[0] == a[0] && s[|s| - 1] == b[|b| - 1];
    TrimmedIsKept(a);
    TrimmedIsKept(s);
    PlainIsKept(a);
    PlainIsKept(b);
    UnderscoredWord(a, gap + b);
    UnderscoredGap(gap, b);
    UpperOfTwo(a, b);
  }

  lemma TrimmedIsKept(s: string)
    requires s != "" && !IsSeparator(s[0]) && !IsSeparator(s[|s| - 1])
    ensures Trim(s) == s
  {
  }

  lemma UpperOfTwo(a: string, b: string)
    ensures Upper(a + ("_" + b)) == Upper(a) + "_" + Upper(b)
  {
    var joined := a + ("_" + b);
    assert Upper(a) + "_" + Upper(b) == Upper(a) + ("_" + Upper(b));
  }

  // ---------- What a role may do ----------

  // A viewer sees the project and its board, and that is all.
  predicate Views(a: Action) {
    a == ViewProject || a == ViewBoard
  }

  // A client comments too.
  predicate ClientDoes(a: Action) {
    Views(a) || a == CommentTasks
  }

  // A contributor works on tasks and files.
  predicate Contributes(a: Action) {
    ClientDoes(a) || a == CreateTasks || a == EditTasks || a == MoveTasks || a == ManageFiles
  }

  // An editor also keeps milestones and risks.
  predicate Edits(a: Action) {
    Contributes(a) || a == ManageMilestones || a == ManageRisks
  }

  // Whoever manages the tenant's tasks contributes, deletes tasks and sees private files.
  predicate RunsTasks(a: Action) {
    Contributes(a) || a == DeleteTasks || a == ViewPrivateFiles
  }

  // A manager does all but delete the project; an owner does that as well.
  predicate RoleDoes(role: ProjectRole, a: Action) {
    match role
    case OWNER => true
    case MANAGER => a != DeleteProject
    case EDITOR => Edits(a)
    case CONTRIBUTOR => Contributes(a)
    case CLIENT_ROLE => ClientDoes(a)
    case VIEWER => Views(a)
  }

  // Someone who is not a member does what the team, the tasks or the visibility let him.
  ghost predicate OutsiderDoes(user: User, p: Project, tasks: seq<Task>, a: Action) {
    if "manage:tasks" in user.permissions && (IsOnTeam(user, p) || Participates(user, p, tasks) || IsOpen(p))
    then RunsTasks(a)
    else if IsOnTeam(user, p) then Contributes(a)
    else (Participates(user, p, tasks) || IsOpen(p)) && Views(a)
  }

  // What an archived project takes away.
  predicate IsClosed(a: Action) {
    || a == CreateTasks || a == EditTasks || a == MoveTasks || a == DeleteTasks || a == ManageFiles
    || a == ManageBoardColumns || a == ManageSprints || a == ManageMilestones || a == ManageRisks
    || a == ViewBudget || a == ManageBudget
  }

  // Whoever manages all projects may do everything, in an archived project too.
  lemma ManagersMay(user: User, p: Project, tasks: seq<Task>, a: Action)
    requires ManagesAll(user)
    ensures a in Actions(user, p, tasks)
  {
    ManagesAllIff(user);
    assert HasAny(user, {"manage:all", "manage:tenant"})
      <==> "manage:all" in user.permissions || "manage:tenant" in user.permissions by {
      assert "manage:all" in {"manage:all", "manage:tenant"} && "manage:tenant" in {"manage:all", "manage:tenant"};
    }
  }

  lemma ManagesAllIff(user: User)
    ensures HasAny(user, GLOBAL) <==> ManagesAll(user)
  {
    assert "manage:all" in GLOBAL && "manage:tenant" in GLOBAL && "manage:projects" in GLOBAL;
  }

  lemma NoManagerNoAdmin(user: User)
    requires !ManagesAll(user)
    ensures !HasAny(user, GLOBAL) && !HasAny(user, {"manage:all", "manage:tenant"})
  {
    ManagesAllIff(user);
  }

  // Any other member may do what the role does, comment with the permission for it, and in an
  // archived project only what it leaves.
  lemma MembersMay(user: User, p: Project, tasks: seq<Task>, m: Membership, a: Action)
    requires !ManagesAll(user) && HasMembership(user, p, m)
    ensures a in Actions(user, p, tasks) <==>
              && (RoleDoes(NormalizeProjectRole(m.role), a)
                  || (a == CommentTasks && "comment:tasks" in user.permissions))
              && (p.archived ==> !IsClosed(a))
  {
    NoManagerNoAdmin(user);
    MembershipIsFound(user, p, m);
    MayIff(user, p, tasks, a);
    RoleAllows(NormalizeProjectRole(m.role), a);
  }

  // The level of a role allows what the role does.
  lemma RoleAllows(role: ProjectRole, a: Action)
    ensures LevelAllows(LevelOfRole(role), a) <==> RoleDoes(role, a)
    ensures LevelOfRole(role) != NO_ACCESS
  {
  }

  lemma MayIff(user: User, p: Project, tasks: seq<Task>, a: Action)
    requires !HasAny(user, GLOBAL)
    ensures var level := AccessLevel(user, p, tasks);
            a in Actions(user, p, tasks) <==>
              && (LevelAllows(level, a)
                  || (a == CommentTasks && "comment:tasks" in user.permissions && level != NO_ACCESS))
              && (p.archived ==> !IsClosed(a))
  {
    ClosedIff(a);
  }

  lemma ClosedIff(a: Action)
    ensures a in ALL_ACTIONS && (OutlivesArchive(a) <==> !IsClosed(a))
  {
  }

  lemma MembershipIsFound(user: User, p: Project, m: Membership)
    requires HasMembership(user, p, m)
    ensures FindFirst(p.members, IsUser(user)) == Some(m)
  {
    var i :| 0 <= i < |p.members| && p.members[i] == m && m.userId == user.id
      && forall j :: 0 <= j < i ==> p.members[j].userId != user.id;
    assert IsUser(user)(p.members[i]);
    var k := IndexOf(p.members, IsUser(user));
    assert k <= i;
    assert IsUser(user)(p.members[k]);
  }

  // Someone who is not a member may do what the ways in let him, comment with the permission for
  // it where he sees the project, and in an archived project only what it leaves.
  lemma OutsidersMay(user: User, p: Project, tasks: seq<Task>, a: Action)
    requires !ManagesAll(user) && IsOutsider(user, p)
    ensures a in Actions(user, p, tasks) <==>
              && (OutsiderDoes(user, p, tasks, a)
                  || (a == CommentTasks && "comment:tasks" in user.permissions
                      && OutsiderDoes(user, p, tasks, ViewProject)))
              && (p.archived ==> !IsClosed(a))
  {
    NoManagerNoAdmin(user);
    OutsideLevelIs(user, p, tasks);
    MayIff(user, p, tasks, a);
    OutsideAllows("manage:tasks" in user.permissions, IsOnTeam(user, p), Participates(user, p, tasks), IsOpen(p), a);
    OutsideAllows("manage:tasks" in user.permissions, IsOnTeam(user, p), Participates(user, p, tasks), IsOpen(p),
                  ViewProject);
  }

  lemma OutsideLevelIs(user: User, p: Project, tasks: seq<Task>)
    requires !ManagesAll(user) && IsOutsider(user, p)
    ensures AccessLevel(user, p, tasks)
         == OutsideLevel("manage:tasks" in user.permissions, IsOnTeam(user, p), Participates(user, p, tasks), IsOpen(p))
  {
    NoManagerNoAdmin(user);
    assert FindFirst(p.members, IsUser(user)).None?;
    ParticipantIff(user, p, tasks);
    assert Participates(user, p, tasks) <==> exists t :: t in tasks && t.projectId == p.id && Involved(user, t);
  }

  lemma OutsideAllows(managesTasks: bool, onTeam: bool, participant: bool, open: bool, a: Action)
    ensures var level := OutsideLevel(managesTasks, onTeam, participant, open);
            && (LevelAllows(level, a) <==>
                if managesTasks && (onTeam || participant || open) then RunsTasks(a)
                else if onTeam then Contributes(a) else (participant || open) && Views(a))
            && (level != NO_ACCESS <==> onTeam || participant || open)
  {
  }

  // So the query lists a project of the tenant exactly for managers, members, the team, those
  // who work on its tasks, and everybody when it is open.
  lemma ListsProjectIff(user: User, p: Project, tasks: seq<Task>)
    ensures ProjectSelected(user, p, tasks) <==>
              p.tenantId == user.tenantId
              && (ManagesAll(user) || IsOpen(p) || !IsOutsider(user, p) || IsOnTeam(user, p)
                  || Participates(user, p, tasks))
  {
    ManagesAllIff(user);
    if t :| t in tasks && t.projectId == p.id
            && (t.reporterId == Some(user.id) || user.id in t.assignees || user.id in t.watchers) {
      assert t.reporterId == Some(user.id) || user.id in t.assignees || user.id in t.watchers;
    }
  }
}
