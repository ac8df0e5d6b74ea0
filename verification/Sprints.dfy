// Sprints (src/agile/agile.service.ts) as functions on the task and sprint tables: the lifecycle
// of a sprint and what becomes of its tasks.
module Sprints {
  import opened Seqs
  import opened Tasks

  datatype Sprint = Sprint(
    tenantId: string, projectId: string, startDate: Option<int>, endDate: Option<int>, completedAt: Option<int>,
    createdAt: int, retrospectives: nat, meetings: nat)

  datatype Db = Db(tasks: map<string, Task>, sprints: map<string, Sprint>)

  datatype Error =
    | NotFound | Forbidden | AlreadyCompleted | NotActive | OtherProject | TargetCompleted | AnotherActive
    | CompletionNotPatchable | ScheduleClosed | ActiveStartFixed | EndWithoutStart | EndBeforeStart
    | NotEmpty | DuplicateKey

  // Keys of the request body that are present; a falsy date is sent as null.
  datatype UpdateDto = UpdateDto(startDate: Patch<int>, endDate: Patch<int>, sendsCompletedAt: bool)

  datatype Completion = Completion(incompleteMoved: nat, incompleteRemaining: nat)

  predicate Visible(db: Db, tenant: string, id: string) {
    id in db.sprints && db.sprints[id].tenantId == tenant
  }

  // isSprintActive
  predicate Active(s: Sprint, now: int) {
    s.startDate.Some? && s.completedAt.None? && s.startDate.value <= now
  }

  // assertSprintSchedule
  function CheckSchedule(start: Option<int>, end: Option<int>): Result<(), Error> {
    if start.None? && end.Some? then Err(EndWithoutStart)
    else if start.Some? && end.Some? && end.value < start.value then Err(EndBeforeStart)
    else Ok(())
  }

  function CreateSprint(db: Db, tenant: string, id: string, project: string, start: Option<int>, end: Option<int>,
                        mayManage: bool, now: int): Result<Db, Error> {
    if !mayManage then Err(Forbidden)
    else if CheckSchedule(start, end).Err? then Err(CheckSchedule(start, end).error)
    else if id in db.sprints then Err(DuplicateKey)
    else Ok(db.(sprints := db.sprints[id := Sprint(tenant, project, start, end, None, now, 0, 0)]))
  }

  // assertSprintUpdateAllowed
  function CheckUpdate(s: Sprint, dto: UpdateDto, nextStart: Option<int>, now: int): Result<(), Error> {
    if dto.sendsCompletedAt then Err(CompletionNotPatchable)
    else if s.completedAt.Some? && (!dto.startDate.Keep? || !dto.endDate.Keep?) then Err(ScheduleClosed)
    else if Active(s, now) && !dto.startDate.Keep? && (nextStart.None? || nextStart.value > now)
      then Err(ActiveStartFixed)
    else Ok(())
  }

  function UpdateSprint(db: Db, tenant: string, id: string, dto: UpdateDto, mayManage: bool,
                        now: int): Result<Db, Error> {
    if !Visible(db, tenant, id) then Err(NotFound)
    else if !mayManage then Err(Forbidden)
    else
      var s := db.sprints[id];
      var nextStart, nextEnd := dto.startDate.Apply(s.startDate), dto.endDate.Apply(s.endDate);
      if CheckUpdate(s, dto, nextStart, now).Err? then Err(CheckUpdate(s, dto, nextStart, now).error)
      else if CheckSchedule(nextStart, nextEnd).Err? then Err(CheckSchedule(nextStart, nextEnd).error)
      else Ok(db.(sprints := db.sprints[id := s.(startDate := nextStart, endDate := nextEnd)]))
  }

  predicate AnotherIsActive(db: Db, id: string, now: int)
    requires id in db.sprints
  {
    exists k :: k in db.sprints && k != id && db.sprints[k].projectId == db.sprints[id].projectId
             && Active(db.sprints[k], now)
  }

  function StartSprint(db: Db, tenant: string, id: string, mayManage: bool, now: int): Result<Db, Error> {
    if !Visible(db, tenant, id) then Err(NotFound)
    else if !mayManage then Err(Forbidden)
    else if db.sprints[id].completedAt.Some? then Err(AlreadyCompleted)
    else if AnotherIsActive(db, id, now) then Err(AnotherActive)
    else Ok(db.(sprints := db.sprints[id := db.sprints[id].(startDate := Some(now))]))
  }

  function SprintTasks(tasks: map<string, Task>, id: string): set<string> {
    set k | k in tasks && tasks[k].sprintId == Some(id)
  }

  function DeleteSprint(db: Db, tenant: string, id: string, mayManage: bool, now: int): Result<Db, Error> {
    if !Visible(db, tenant, id) then Err(NotFound)
    else if !mayManage then Err(Forbidden)
    else if db.sprints[id].completedAt.Some? then Err(AlreadyCompleted)
    else if Active(db.sprints[id], now) then Err(NotActive)
    else if SprintTasks(db.tasks, id) != {} || db.sprints[id].retrospectives > 0 || db.sprints[id].meetings > 0
      then Err(NotEmpty)
    else Ok(db.(sprints := db.sprints - {id}))
  }

  predicate Unfinished(t: Task, id: string) {
    t.sprintId == Some(id) && t.status != DONE && t.status != CANCELLED
  }

  function UnfinishedIds(tasks: map<string, Task>, id: string): set<string> {
    set k | k in tasks && Unfinished(tasks[k], id)
  }

  // updateMany({ where: incompleteWhere, data: { sprintId: target } })
  function MoveUnfinished(tasks: map<string, Task>, id: string, target: Option<string>): map<string, Task> {
    map k | k in tasks :: if Unfinished(tasks[k], id) then tasks[k].(sprintId := target) else tasks[k]
  }

  // The sprint the request sends unfinished tasks to, checked.
  function CheckTarget(db: Db, tenant: string, s: Sprint, moveTo: Option<string>): Result<Option<string>, Error> {
    if !Given(moveTo) then Ok(None)
    else if !Visible(db, tenant, moveTo.value) then Err(NotFound)
    else if db.sprints[moveTo.value].projectId != s.projectId then Err(OtherProject)
    else if db.sprints[moveTo.value].completedAt.Some? then Err(TargetCompleted)
    else Ok(moveTo)
  }

  function CompleteSprint(db: Db, tenant: string, id: string, moveTo: Option<string>, toBacklog: Option<bool>,
                          mayManage: bool, now: int): Result<(Db, Completion), Error> {
    if !Visible(db, tenant, id) then Err(NotFound)
    else if !mayManage then Err(Forbidden)
    else if db.sprints[id].completedAt.Some? then Err(AlreadyCompleted)
    else if !Active(db.sprints[id], now) then Err(NotActive)
    else
      var target := CheckTarget(db, tenant, db.sprints[id], moveTo);
      if target.Err? then Err(target.error)
      else
        var moves := target.value.Some? || toBacklog.GetOr(true);
        var count := |UnfinishedIds(db.tasks, id)|;
        var tasks := if moves then MoveUnfinished(db.tasks, id, target.value) else db.tasks;
        var sprints := db.sprints[id := db.sprints[id].(completedAt := Some(now))];
        Ok((Db(tasks, sprints), if moves then Completion(count, 0) else Completion(0, count)))
  }

  // addSprintTasks: it does not look at the sprint's completion.
  function AddTasks(db: Db, tenant: string, id: string, taskIds: set<string>, mayManage: bool): Result<Db, Error> {
    if !Visible(db, tenant, id) then Err(NotFound)
    else if !mayManage then Err(Forbidden)
    else if exists k :: k in taskIds && !(k in db.tasks && db.tasks[k].tenantId == tenant) then Err(NotFound)
    else if exists k :: k in taskIds && k in db.tasks && db.tasks[k].projectId != db.sprints[id].projectId
      then Err(OtherProject)
    else Ok(db.(tasks := map k | k in db.tasks :: if k in taskIds then db.tasks[k].(sprintId := Some(id))
                else db.tasks[k]))
  }

  function RemoveTask(db: Db, tenant: string, id: string, taskId: string, mayManage: bool): Result<Db, Error> {
    if !Visible(db, tenant, id) then Err(NotFound)
    else if !mayManage then Err(Forbidden)
    else if !(taskId in db.tasks && db.tasks[taskId].tenantId == tenant
              && db.tasks[taskId].projectId == db.sprints[id].projectId) then Err(NotFound)
    else Ok(db.(tasks := db.tasks[taskId := db.tasks[taskId].(sprintId := None)]))
  }

  // ---------- Completion conserves tasks ----------

  lemma MovedTask(tasks: map<string, Task>, id: string, target: Option<string>, k: string)
    requires k in tasks
    ensures var moved := MoveUnfinished(tasks, id, target);
            k in moved && moved[k] == if Unfinished(tasks[k], id) then tasks[k].(sprintId := target) else tasks[k]
  {
  }

  // What completion does to the task table: nothing, or the move to the checked target.
  lemma CompletionEffect(db: Db, tenant: string, id: string, moveTo: Option<string>, toBacklog: Option<bool>,
                         mayManage: bool, now: int, after: Db, outcome: Completion)
    requires CompleteSprint(db, tenant, id, moveTo, toBacklog, mayManage, now) == Ok((after, outcome))
    ensures outcome.incompleteMoved + outcome.incompleteRemaining == |UnfinishedIds(db.tasks, id)|
    ensures if Given(moveTo)
            then after.tasks == MoveUnfinished(db.tasks, id, moveTo) && outcome.incompleteRemaining == 0
            else if toBacklog.GetOr(true)
              then after.tasks == MoveUnfinished(db.tasks, id, None) && outcome.incompleteRemaining == 0
            else after.tasks == db.tasks && outcome.incompleteMoved == 0
  {
  }

  // Completing a sprint rewrites nothing of a task but the sprint it is in, and that only for
  // unfinished tasks of the sprint; the report accounts for every one of them.
  lemma CompletionConservesTasks(db: Db, tenant: string, id: string, moveTo: Option<string>, toBacklog: Option<bool>,
                                 mayManage: bool, now: int, after: Db, outcome: Completion)
    requires CompleteSprint(db, tenant, id, moveTo, toBacklog, mayManage, now) == Ok((after, outcome))
    ensures after.tasks.Keys == db.tasks.Keys
    ensures forall k :: k in db.tasks && !Unfinished(db.tasks[k], id) ==> after.tasks[k] == db.tasks[k]
    ensures forall k :: k in db.tasks ==> after.tasks[k].(sprintId := db.tasks[k].sprintId) == db.tasks[k]
    ensures outcome.incompleteMoved + outcome.incompleteRemaining == |UnfinishedIds(db.tasks, id)|
  {
    CompletionEffect(db, tenant, id, moveTo, toBacklog, mayManage, now, after, outcome);
    forall k | k in db.tasks
      ensures k in after.tasks && after.tasks[k].(sprintId := db.tasks[k].sprintId) == db.tasks[k]
      ensures !Unfinished(db.tasks[k], id) ==> after.tasks[k] == db.tasks[k]
    {
      MovedTask(db.tasks, id, if Given(moveTo) then moveTo else None, k);
    }
  }

  lemma MoveFillsTarget(tasks: map<string, Task>, id: string, target: string)
    requires target != id
    ensures SprintTasks(MoveUnfinished(tasks, id, Some(target)), target)
            == SprintTasks(tasks, target) + UnfinishedIds(tasks, id)
    ensures SprintTasks(MoveUnfinished(tasks, id, Some(target)), id)
            == SprintTasks(tasks, id) - UnfinishedIds(tasks, id)
  {
    var moved := MoveUnfinished(tasks, id, Some(target));
    forall k
      ensures k in SprintTasks(moved, target) <==> k in SprintTasks(tasks, target) + UnfinishedIds(tasks, id)
      ensures k in SprintTasks(moved, id) <==> k in SprintTasks(tasks, id) - UnfinishedIds(tasks, id)
    {
      if k in tasks {
        MovedTask(tasks, id, Some(target), k);
      }
    }
  }

  // Another sprint gains exactly the unfinished tasks, and the sprint keeps exactly the others.
  lemma CompletionFillsTarget(db: Db, tenant: string, id: string, moveTo: string, toBacklog: Option<bool>,
                              mayManage: bool, now: int, after: Db, outcome: Completion)
    requires CompleteSprint(db, tenant, id, Some(moveTo), toBacklog, mayManage, now) == Ok((after, outcome))
    requires moveTo != "" && moveTo != id
    ensures SprintTasks(after.tasks, moveTo) == SprintTasks(db.tasks, moveTo) + UnfinishedIds(db.tasks, id)
    ensures SprintTasks(after.tasks, id) == SprintTasks(db.tasks, id) - UnfinishedIds(db.tasks, id)
  {
    CompletionEffect(db, tenant, id, Some(moveTo), toBacklog, mayManage, now, after, outcome);
    MoveFillsTarget(db.tasks, id, moveTo);
  }

  // Afterwards no unfinished task is left in the sprint exactly when there was none, or they
  // went to another sprint, or to the backlog; the service lets the sprint itself be the target.
  lemma NoneLeftBehindIff(db: Db, tenant: string, id: string, moveTo: Option<string>, toBacklog: Option<bool>,
                          mayManage: bool, now: int, after: Db, outcome: Completion)
    requires CompleteSprint(db, tenant, id, moveTo, toBacklog, mayManage, now) == Ok((after, outcome))
    ensures UnfinishedIds(after.tasks, id) == {} <==>
              UnfinishedIds(db.tasks, id) == {} || (if Given(moveTo) then moveTo.value != id else toBacklog.GetOr(true))
  {
    CompletionEffect(db, tenant, id, moveTo, toBacklog, mayManage, now, after, outcome);
    if Given(moveTo) || toBacklog.GetOr(true) {
      LeftBehind(db.tasks, id, if Given(moveTo) then moveTo else None);
    }
  }

  // A move empties the sprint of unfinished tasks unless it moves them to where they are.
  lemma LeftBehind(tasks: map<string, Task>, id: string, target: Option<string>)
    ensures UnfinishedIds(MoveUnfinished(tasks, id, target), id) == if target == Some(id)
            then UnfinishedIds(tasks, id) else {}
  {
    forall k | k in tasks
      ensures Unfinished(MoveUnfinished(tasks, id, target)[k], id) <==> target == Some(id) && Unfinished(tasks[k], id)
    {
      MovedTask(tasks, id, target, k);
    }
  }

  // The report is right about what is left exactly when the tasks did not stay in the sprint
  // under the name of a move.
  lemma ReportIsRightIff(db: Db, tenant: string, id: string, moveTo: Option<string>, toBacklog: Option<bool>,
                         mayManage: bool, now: int, after: Db, outcome: Completion)
    requires CompleteSprint(db, tenant, id, moveTo, toBacklog, mayManage, now) == Ok((after, outcome))
    ensures outcome.incompleteRemaining == |UnfinishedIds(after.tasks, id)|
       <==> UnfinishedIds(db.tasks, id) == {} || !(Given(moveTo) && moveTo.value == id)
  {
    CompletionEffect(db, tenant, id, moveTo, toBacklog, mayManage, now, after, outcome);
    if Given(moveTo) || toBacklog.GetOr(true) {
      LeftBehind(db.tasks, id, if Given(moveTo) then moveTo else None);
    }
  }

  // An instance: a sprint completed into itself keeps its one unfinished task and reports it moved.
  lemma SelfTargetExample(task: Task, now: int) returns (db: Db, after: Db)
    requires task.sprintId == Some("s") && task.status == TODO
    ensures CompleteSprint(db, "t", "s", Some("s"), None, true, now) == Ok((after, Completion(1, 0)))
    ensures UnfinishedIds(after.tasks, "s") == {"k"}
  {
    db := Db(map["k" := task], map["s" := Sprint("t", "p", Some(now), None, None, now, 0, 0)]);
    assert UnfinishedIds(db.tasks, "s") == {"k"};
    after := CompleteSprint(db, "t", "s", Some("s"), None, true, now).value.0;
    LeftBehind(db.tasks, "s", Some("s"));
  }

  // ---------- Completion is absorbing ----------

  datatype Step =
    | Create(id: string, project: string, start: Option<int>, end: Option<int>)
    | Update(id: string, dto: UpdateDto)
    | Start(id: string)
    | Complete(id: string, moveTo: Option<string>, toBacklog: Option<bool>)
    | Delete(id: string)
    | Add(id: string, taskIds: set<string>)
    | Remove(id: string, taskId: string)

  datatype Request = Request(tenant: string, step: Step, mayManage: bool, now: int)

  function After(db: Db, r: Request): Db {
    match r.step
    case Create(id, project, start, end) => Kept(db,
                                                 CreateSprint(db, r.tenant, id, project, start, end, r.mayManage,
                                                              r.now))
    case Update(id, dto) => Kept(db, UpdateSprint(db, r.tenant, id, dto, r.mayManage, r.now))
    case Start(id) => Kept(db, StartSprint(db, r.tenant, id, r.mayManage, r.now))
    case Complete(id, moveTo, toBacklog) =>
      var outcome := CompleteSprint(db, r.tenant, id, moveTo, toBacklog, r.mayManage, r.now);
      if outcome.Ok? then outcome.value.0 else db
    case Delete(id) => Kept(db, DeleteSprint(db, r.tenant, id, r.mayManage, r.now))
    case Add(id, taskIds) => Kept(db, AddTasks(db, r.tenant, id, taskIds, r.mayManage))
    case Remove(id, taskId) => Kept(db, RemoveTask(db, r.tenant, id, taskId, r.mayManage))
  }

  // A refused request changes nothing.
  function Kept(db: Db, outcome: Result<Db, Error>): Db {
    if outcome.Ok? then outcome.value else db
  }

  function Run(db: Db, requests: seq<Request>): Db
    decreases |requests|
  {
    if requests == [] then db else Run(After(db, requests[0]), requests[1..])
  }

  lemma StepKeepsCompleted(db: Db, r: Request, id: string)
    requires id in db.sprints && db.sprints[id].completedAt.Some?
    ensures id in After(db, r).sprints && After(db, r).sprints[id] == db.sprints[id]
  {
  }

  // A completed sprint stays as it is, dates and completion included, over any run of requests.
  lemma {:induction false} CompletedIsFinal(db: Db, requests: seq<Request>, id: string)
    requires id in db.sprints && db.sprints[id].completedAt.Some?
    ensures id in Run(db, requests).sprints && Run(db, requests).sprints[id] == db.sprints[id]
    decreases |requests|
  {
    if requests != [] {
      StepKeepsCompleted(db, requests[0], id);
      CompletedIsFinal(After(db, requests[0]), requests[1..], id);
    }
  }

  lemma OthersUntouched(db: Db, r: Request, id: string)
    requires id in db.sprints && (r.step.id != id || r.step.Create? || r.step.Add? || r.step.Remove?)
    ensures id in After(db, r).sprints && After(db, r).sprints[id] == db.sprints[id]
  {
  }

  predicate CompletedBy(s: Sprint, r: Request, id: string) {
    r.step.Complete? && r.step.id == id && s.completedAt == Some(r.now)
  }

  lemma StepKeepsActive(db: Db, r: Request, id: string, now: int)
    requires id in db.sprints && Active(db.sprints[id], now) && now <= r.now
    ensures id in After(db, r).sprints
    ensures var s := After(db, r).sprints[id];
            Active(s, r.now) || CompletedBy(s, r, id)
  {
    if r.step.id != id || r.step.Create? || r.step.Add? || r.step.Remove? {
      OthersUntouched(db, r, id);
    }
  }

  // The requests come at times that do not run backwards, the first not before now.
  predicate InOrder(requests: seq<Request>, now: int)
    decreases |requests|
  {
    requests == [] || (now <= requests[0].now && InOrder(requests[1..], requests[0].now))
  }

  function EndOf(requests: seq<Request>, now: int): int {
    if requests == [] then now else requests[|requests| - 1].now
  }

  // A sprint that is active can be neither deleted nor unstarted: over any run of requests in
  // order of time it is still active at the end, or a request to complete it has set the time
  // of that request as its completion.
  lemma {:induction false} ActiveLeavesOnlyByCompletion(db: Db, requests: seq<Request>, id: string, now: int)
    requires id in db.sprints && Active(db.sprints[id], now) && InOrder(requests, now)
    ensures id in Run(db, requests).sprints
    ensures var s := Run(db, requests).sprints[id];
            Active(s, EndOf(requests, now)) || exists i :: 0 <= i < |requests| && CompletedBy(s, requests[i], id)
    decreases |requests|
  {
    if requests != [] {
      var first, rest := requests[0], requests[1..];
      StepKeepsActive(db, first, id, now);
      var s := After(db, first).sprints[id];
      if s.completedAt.Some? {
        CompletedIsFinal(After(db, first), rest, id);
        assert CompletedBy(Run(db, requests).sprints[id], requests[0], id);
      } else {
        ActiveLeavesOnlyByCompletion(After(db, first), rest, id, first.now);
        var t := Run(db, requests).sprints[id];
        if i :| 0 <= i < |rest| && CompletedBy(t, rest[i], id) {
          assert CompletedBy(t, requests[i + 1], id);
        }
      }
    }
  }

  // Every task still lies in a sprint that exists.
  ghost predicate NoOrphans(db: Db) {
    forall k :: k in db.tasks && db.tasks[k].sprintId.Some? ==> db.tasks[k].sprintId.value in db.sprints
  }

  // Deletion asks for a sprint without tasks, so no request leaves a task in a sprint that is gone.
  lemma StepKeepsNoOrphans(db: Db, r: Request)
    requires NoOrphans(db)
    ensures NoOrphans(After(db, r))
  {
    if r.step.Delete? {
      forall k | k in db.tasks && db.tasks[k].sprintId == Some(r.step.id)
        ensures k in SprintTasks(db.tasks, r.step.id)
      {
      }
    }
  }

  lemma {:induction false} RunKeepsNoOrphans(db: Db, requests: seq<Request>)
    requires NoOrphans(db)
    ensures NoOrphans(Run(db, requests))
    decreases |requests|
  {
    if requests != [] {
      StepKeepsNoOrphans(db, requests[0]);
      RunKeepsNoOrphans(After(db, requests[0]), requests[1..]);
    }
  }
}
