// What a sprint request leaves (src/agile/agile.service.ts): when it is accepted, and the sprint
// and the tasks it leaves.
module SprintRequests {
  import opened Seqs
  import opened Tasks
  import opened Sprints

  predicate IsOwn(db: Db, tenant: string, id: string) {
    id in db.sprints && db.sprints[id].tenantId == tenant
  }

  // Started and not completed.
  predicate IsRunning(s: Sprint, now: int) {
    s.startDate.Some? && s.startDate.value <= now && s.completedAt.None?
  }

  // An end comes with a start, and not before it.
  predicate IsSchedule(start: Option<int>, end: Option<int>) {
    end.Some? ==> start.Some? && start.value <= end.value
  }

  // Every sprint but one is as it was.
  ghost predicate OthersStay(db: Db, after: Db, id: string) {
    forall k :: k != id ==>
      (k in after.sprints <==> k in db.sprints) && (k in db.sprints ==> after.sprints[k] == db.sprints[k])
  }

  // ---------- Create, update, start, delete ----------

  lemma CreateLeaves(db: Db, tenant: string, id: string, project: string, start: Option<int>, end: Option<int>,
                     mayManage: bool, now: int)
    ensures var outcome := CreateSprint(db, tenant, id, project, start, end, mayManage, now);
            && (outcome.Ok? <==> mayManage && IsSchedule(start, end) && id !in db.sprints)
            && (outcome.Ok? ==>
                  && outcome.value.tasks == db.tasks && id in outcome.value.sprints && OthersStay(db, outcome.value, id)
                  && outcome.value.sprints[id] == Sprint(tenant, project, start, end, None, now, 0, 0))
  {
  }

  function DateSent(sent: Patch<int>, before: Option<int>): Option<int> {
    match sent
    case Keep => before
    case Clear => None
    case Put(value) => Some(value)
  }

  // An update is accepted exactly when it sends no completion, touches no date of a completed
  // sprint, keeps a running one started, and leaves a schedule.
  lemma UpdateIsAcceptedIff(db: Db, tenant: string, id: string, dto: UpdateDto, mayManage: bool, now: int)
    ensures UpdateSprint(db, tenant, id, dto, mayManage, now).Ok? <==>
              && IsOwn(db, tenant, id) && mayManage && !dto.sendsCompletedAt
              && (var s := db.sprints[id];
                  var start, end := DateSent(dto.startDate, s.startDate), DateSent(dto.endDate, s.endDate);
                  && (s.completedAt.Some? ==> dto.startDate.Keep? && dto.endDate.Keep?)
                  && (IsRunning(s, now) && !dto.startDate.Keep? ==> start.Some? && start.value <= now)
                  && IsSchedule(start, end))
  {
  }

  lemma UpdateLeaves(db: Db, tenant: string, id: string, dto: UpdateDto, mayManage: bool, now: int, after: Db)
    requires UpdateSprint(db, tenant, id, dto, mayManage, now) == Ok(after)
    ensures after.tasks == db.tasks && id in db.sprints && id in after.sprints && OthersStay(db, after, id)
    ensures Patches(dto.startDate, db.sprints[id].startDate, after.sprints[id].startDate)
    ensures Patches(dto.endDate, db.sprints[id].endDate, after.sprints[id].endDate)
    ensures after.sprints[id].(startDate := db.sprints[id].startDate, endDate := db.sprints[id].endDate)
            == db.sprints[id]
  {
  }

  // A sprint is started now exactly when it is not completed and no other of the project runs.
  lemma StartLeaves(db: Db, tenant: string, id: string, mayManage: bool, now: int)
    ensures var outcome := StartSprint(db, tenant, id, mayManage, now);
            && (outcome.Ok? <==>
                && IsOwn(db, tenant, id) && mayManage && db.sprints[id].completedAt.None?
                && (forall k :: k in db.sprints && k != id && db.sprints[k].projectId == db.sprints[id].projectId ==>
                      !IsRunning(db.sprints[k], now)))
            && (outcome.Ok? ==>
                  && outcome.value.tasks == db.tasks && id in outcome.value.sprints && OthersStay(db, outcome.value, id)
                  && outcome.value.sprints[id] == db.sprints[id].(startDate := Some(now)))
  {
    if id in db.sprints {
      assert AnotherIsActive(db, id, now) <==>
        exists k :: k in db.sprints && k != id && db.sprints[k].projectId == db.sprints[id].projectId
                 && IsRunning(db.sprints[k], now);
    }
  }

  // A sprint is deleted exactly when it neither runs nor is completed and nothing hangs on it.
  lemma DeleteLeaves(db: Db, tenant: string, id: string, mayManage: bool, now: int)
    ensures var outcome := DeleteSprint(db, tenant, id, mayManage, now);
            && (outcome.Ok? <==>
                && IsOwn(db, tenant, id) && mayManage && db.sprints[id].completedAt.None?
                && !IsRunning(db.sprints[id], now) && db.sprints[id].retrospectives == 0 && db.sprints[id].meetings == 0
                && (forall k :: k in db.tasks ==> db.tasks[k].sprintId != Some(id)))
            && (outcome.Ok? ==>
                  outcome.value.tasks == db.tasks && id !in outcome.value.sprints && OthersStay(db, outcome.value, id))
  {
    assert SprintTasks(db.tasks, id) == {} <==> forall k :: k in db.tasks ==> k !in SprintTasks(db.tasks, id);
  }

  // ---------- Complete ----------

  // A task of the sprint that is neither done nor cancelled.
  predicate IsOpen(t: Task, id: string) {
    t.sprintId == Some(id) && !(t.status == DONE || t.status == CANCELLED)
  }

  // A running sprint is completed exactly with no target, or one of the project that is not
  // completed.
  lemma CompleteIsAcceptedIff(db: Db, tenant: string, id: string, moveTo: Option<string>, toBacklog: Option<bool>,
                              mayManage: bool, now: int)
    ensures CompleteSprint(db, tenant, id, moveTo, toBacklog, mayManage, now).Ok? <==>
              && IsOwn(db, tenant, id) && mayManage && IsRunning(db.sprints[id], now)
              && (Given(moveTo) ==>
                    && IsOwn(db, tenant, moveTo.value) && db.sprints[moveTo.value].completedAt.None?
                    && db.sprints[moveTo.value].projectId == db.sprints[id].projectId)
  {
  }

  // It is stamped, its open tasks go to the target, or without one to the backlog unless that is
  // declined, the report counts them, and nothing else changes.
  lemma CompleteLeaves(db: Db, tenant: string, id: string, moveTo: Option<string>, toBacklog: Option<bool>,
                       mayManage: bool, now: int, after: Db, outcome: Completion, k: string)
    requires CompleteSprint(db, tenant, id, moveTo, toBacklog, mayManage, now) == Ok((after, outcome))
    ensures id in db.sprints && id in after.sprints && OthersStay(db, after, id)
    ensures after.sprints[id] == db.sprints[id].(completedAt := Some(now))
    ensures k in after.tasks <==> k in db.tasks
    ensures var moves := Given(moveTo) || toBacklog != Some(false);
            k in db.tasks ==>
              after.tasks[k] == if moves && IsOpen(db.tasks[k], id)
              then db.tasks[k].(sprintId := if Given(moveTo) then moveTo else None) else db.tasks[k]
    ensures var moves, open := Given(moveTo) || toBacklog != Some(false),
            set t | t in db.tasks && IsOpen(db.tasks[t], id);
            outcome == if moves then Completion(|open|, 0) else Completion(0, |open|)
  {
    assert UnfinishedIds(db.tasks, id) == set t | t in db.tasks && IsOpen(db.tasks[t], id);
    CompletionEffect(db, tenant, id, moveTo, toBacklog, mayManage, now, after, outcome);
    if k in db.tasks {
      MovedTask(db.tasks, id, if Given(moveTo) then moveTo else None, k);
    }
  }

  // ---------- Tasks in and out ----------

  lemma AddLeaves(db: Db, tenant: string, id: string, taskIds: set<string>, mayManage: bool, k: string)
    ensures var outcome := AddTasks(db, tenant, id, taskIds, mayManage);
            && (outcome.Ok? <==>
                && IsOwn(db, tenant, id) && mayManage
                && (forall t :: t in taskIds ==>
                      && t in db.tasks && db.tasks[t].tenantId == tenant
                      && db.tasks[t].projectId == db.sprints[id].projectId))
            && (outcome.Ok? ==>
                  && outcome.value.sprints == db.sprints && (k in outcome.value.tasks <==> k in db.tasks)
                  && (k in db.tasks ==>
                        outcome.value.tasks[k] == if k in taskIds then db.tasks[k].(sprintId := Some(id))
                        else db.tasks[k]))
  {
  }

  lemma RemoveLeaves(db: Db, tenant: string, id: string, taskId: string, mayManage: bool)
    ensures var outcome := RemoveTask(db, tenant, id, taskId, mayManage);
            && (outcome.Ok? <==>
                && IsOwn(db, tenant, id) && mayManage && taskId in db.tasks && db.tasks[taskId].tenantId == tenant
                && db.tasks[taskId].projectId == db.sprints[id].projectId)
            && (outcome.Ok? ==>
                  outcome.value == db.(tasks := db.tasks[taskId := db.tasks[taskId].(sprintId := None)]))
  {
  }
}
