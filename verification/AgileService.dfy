// AgileService (src/agile/agile.service.ts): tasks, boards and sprints as fields, written one
// statement at a time, proved to have the effect BoardMoves and Sprints state.
module AgileService {
  import opened Seqs
  import opened Tasks
  import M = BoardMoves
  import S = Sprints

  function Projects(sprints: map<string, S.Sprint>): map<string, string> {
    map k | k in sprints :: sprints[k].projectId
  }

  class Service {
    var tasks: map<string, Task>
    var boards: seq<Board>
    var sprints: map<string, S.Sprint>

    // The tables as task moves see them, and as the sprint methods do.
    function Moves(): M.Db
      reads this
    {
      M.Db(tasks, boards, Projects(sprints))
    }

    function Planning(): S.Db
      reads this
    {
      S.Db(tasks, sprints)
    }

    // ---------- Board and limits ----------

    method EnsureDefaultBoard(tenant: string, project: string, newIds: M.FreshIds) returns (board: Board)
      modifies this`boards
      ensures (boards, board) == M.EnsureDefaultBoard(old(boards), tenant, project, newIds)
    {
      var i := IndexOf(boards, M.DefaultOf(tenant, project));
      if i < |boards| {
        return boards[i];
      }
      var j := IndexOf(boards, M.OfProject(tenant, project));
      if j < |boards| {
        boards := boards[j := boards[j].(isDefault := true)];
        return boards[j];
      }
      board := Board(newIds.boardId, tenant, project, true, M.DefaultColumns(newIds.columnId));
      boards := boards + [board];
    }

    // False when the limit of the default board's column of the new status is reached.
    method AssertWipLimitAllowsMove(tenant: string, project: string, current: Status, next: Status,
                                    newIds: M.FreshIds) returns (allowed: bool)
      modifies this`boards
      ensures current == next ==> boards == old(boards) && allowed
      ensures current != next ==>
                var (after, board) := M.EnsureDefaultBoard(old(boards), tenant, project, newIds);
                boards == after && allowed == M.StatusMoveAllowed(tasks, tenant, project, board, next)
    {
      if current == next {
        return true;
      }
      var board := EnsureDefaultBoard(tenant, project, newIds);
      var column := FindFirst(board.columns, HasStatus(next));
      if column.None? || !M.Truthy(column.value.wipLimit) {
        return true;
      }
      return M.CountWithStatus(tasks, tenant, project, next) < column.value.wipLimit.value;
    }

    method UpdateTaskStatus(tenant: string, taskId: string, status: Status, answers: M.Answers, newIds: M.FreshIds,
                            now: int)
      returns (r: Result<(), M.Error>)
      modifies this`tasks, this`boards
      ensures (Moves(), r) == M.UpdateTaskStatus(old(Moves()), tenant, taskId, status, answers, newIds, now)
    {
      if taskId !in tasks || tasks[taskId].tenantId != tenant {
        return Err(M.NotFound);
      }
      if !answers.mayMove {
        return Err(M.Forbidden);
      }
      var task := tasks[taskId];
      var board := EnsureDefaultBoard(tenant, task.projectId, newIds);
      EnsuringTwiceIsOnce(old(boards), tenant, task.projectId, newIds);
      var target := FindFirst(board.columns, HasStatus(status));
      var allowed := AssertWipLimitAllowsMove(tenant, task.projectId, task.status, status, newIds);
      if !allowed {
        return Err(M.WipLimitReached);
      }
      if status == DONE && task.status != DONE && !answers.doneGate {
        return Err(M.DoneGate);
      }
      tasks := tasks[taskId := task.(
        status := status, boardColumnId := if target.Some? then Some(target.value.id) else None,
        completedAt := M.Stamped(task.completedAt, status, now))];
      return Ok(());
    }

    method UpdateTaskOrder(tenant: string, taskId: string, dto: M.OrderDto, answers: M.Answers, newIds: M.FreshIds,
                           now: int)
      returns (r: Result<(), M.Error>)
      modifies this`tasks, this`boards
      ensures (Moves(), r) == M.UpdateTaskOrder(old(Moves()), tenant, taskId, dto, answers, newIds, now)
    {
      if taskId !in tasks || tasks[taskId].tenantId != tenant {
        return Err(M.NotFound);
      }
      if !answers.mayMove {
        return Err(M.Forbidden);
      }
      var task := tasks[taskId];
      var column := M.NextColumn(Moves(), tenant, task, dto);
      if M.NamesColumn(dto) && column.None? {
        return Err(M.NotFound);
      }
      var nextStatus := M.NextStatus(column, dto);
      var allowed := CheckLimits(tenant, task, column, nextStatus, newIds);
      if !allowed {
        return Err(M.WipLimitReached);
      }
      r := FinishOrder(taskId, dto, nextStatus, answers, now);
    }

    method CheckLimits(tenant: string, task: Task, column: Option<Column>, nextStatus: Option<Status>,
                       newIds: M.FreshIds) returns (allowed: bool)
      modifies this`boards
      ensures (boards, allowed) == M.CheckLimits(old(Moves()), tenant, task, column, nextStatus, newIds)
    {
      if M.LimitApplies(task, column, nextStatus) {
        return M.CountForColumn(tasks, tenant, task.projectId, column.value) < column.value.wipLimit.value;
      }
      if nextStatus.None? {
        return true;
      }
      allowed := AssertWipLimitAllowsMove(tenant, task.projectId, task.status, nextStatus.value, newIds);
    }

    method FinishOrder(taskId: string, dto: M.OrderDto, nextStatus: Option<Status>, answers: M.Answers,
                       now: int) returns (r: Result<(), M.Error>)
      requires taskId in tasks
      modifies this`tasks
      ensures (Moves(), r) == M.FinishOrder(old(Moves()), taskId, dto, nextStatus, answers, now)
    {
      var task := tasks[taskId];
      if nextStatus == Some(DONE) && task.status != DONE && !answers.doneGate {
        return Err(M.DoneGate);
      }
      if dto.sprintId.Put? && dto.sprintId.value != ""
          && (dto.sprintId.value !in sprints || sprints[dto.sprintId.value].projectId != task.projectId) {
        return Err(M.NotFound);
      }
      if dto.boardColumnId == Put("") || dto.sprintId == Put("") {
        return Err(M.ForeignKeyViolation);
      }
      tasks := tasks[taskId := M.Moved(task, dto, nextStatus, now)];
      return Ok(());
    }

    // ---------- Sprints ----------

    method CreateSprint(tenant: string, id: string, project: string, start: Option<int>, end: Option<int>,
                        mayManage: bool, now: int)
      returns (r: Result<(), S.Error>)
      modifies this`sprints
      ensures match S.CreateSprint(old(Planning()), tenant, id, project, start, end, mayManage, now)
              case Ok(after) => Planning() == after && r.Ok?
              case Err(error) => Planning() == old(Planning()) && r == Err(error)
    {
      if !mayManage {
        return Err(S.Forbidden);
      }
      var schedule := S.CheckSchedule(start, end);
      if schedule.Err? {
        return schedule;
      }
      if id in sprints {
        return Err(S.DuplicateKey);
      }
      sprints := sprints[id := S.Sprint(tenant, project, start, end, None, now, 0, 0)];
      return Ok(());
    }

    method UpdateSprint(tenant: string, id: string, dto: S.UpdateDto, mayManage: bool,
                        now: int) returns (r: Result<(), S.Error>)
      modifies this`sprints
      ensures match S.UpdateSprint(old(Planning()), tenant, id, dto, mayManage, now)
              case Ok(after) => Planning() == after && r.Ok?
              case Err(error) => Planning() == old(Planning()) && r == Err(error)
    {
      if id !in sprints || sprints[id].tenantId != tenant {
        return Err(S.NotFound);
      }
      if !mayManage {
        return Err(S.Forbidden);
      }
      var s := sprints[id];
      var nextStart, nextEnd := dto.startDate.Apply(s.startDate), dto.endDate.Apply(s.endDate);
      var allowed := S.CheckUpdate(s, dto, nextStart, now);
      if allowed.Err? {
        return allowed;
      }
      var schedule := S.CheckSchedule(nextStart, nextEnd);
      if schedule.Err? {
        return schedule;
      }
      sprints := sprints[id := s.(startDate := nextStart, endDate := nextEnd)];
      return Ok(());
    }

    method StartSprint(tenant: string, id: string, mayManage: bool, now: int) returns (r: Result<(), S.Error>)
      modifies this`sprints
      ensures match S.StartSprint(old(Planning()), tenant, id, mayManage, now)
              case Ok(after) => Planning() == after && r.Ok?
              case Err(error) => Planning() == old(Planning()) && r == Err(error)
    {
      if id !in sprints || sprints[id].tenantId != tenant {
        return Err(S.NotFound);
      }
      if !mayManage {
        return Err(S.Forbidden);
      }
      if sprints[id].completedAt.Some? {
        return Err(S.AlreadyCompleted);
      }
      if S.AnotherIsActive(Planning(), id, now) {
        return Err(S.AnotherActive);
      }
      sprints := sprints[id := sprints[id].(startDate := Some(now))];
      return Ok(());
    }

    // In one transaction: count the unfinished tasks, move them, complete the sprint.
    method CompleteSprint(tenant: string, id: string, moveTo: Option<string>, toBacklog: Option<bool>,
                          mayManage: bool, now: int)
      returns (r: Result<S.Completion, S.Error>)
      modifies this`sprints, this`tasks
      ensures match S.CompleteSprint(old(Planning()), tenant, id, moveTo, toBacklog, mayManage, now)
              case Ok((after, completion)) => Planning() == after && r == Ok(completion)
              case Err(error) => Planning() == old(Planning()) && r == Err(error)
    {
      if id !in sprints || sprints[id].tenantId != tenant {
        return Err(S.NotFound);
      }
      if !mayManage {
        return Err(S.Forbidden);
      }
      if sprints[id].completedAt.Some? {
        return Err(S.AlreadyCompleted);
      }
      if sprints[id].startDate.None? || sprints[id].startDate.value > now {
        return Err(S.NotActive);
      }
      var target := S.CheckTarget(Planning(), tenant, sprints[id], moveTo);
      if target.Err? {
        return Err(target.error);
      }
      var count := |S.UnfinishedIds(tasks, id)|;
      var moves := target.value.Some? || toBacklog.GetOr(true);
      if moves {
        tasks := S.MoveUnfinished(tasks, id, target.value);
      }
      sprints := sprints[id := sprints[id].(completedAt := Some(now))];
      return Ok(if moves then S.Completion(count, 0) else S.Completion(0, count));
    }

    method DeleteSprint(tenant: string, id: string, mayManage: bool, now: int) returns (r: Result<(), S.Error>)
      modifies this`sprints
      ensures match S.DeleteSprint(old(Planning()), tenant, id, mayManage, now)
              case Ok(after) => Planning() == after && r.Ok?
              case Err(error) => Planning() == old(Planning()) && r == Err(error)
    {
      if id !in sprints || sprints[id].tenantId != tenant {
        return Err(S.NotFound);
      }
      if !mayManage {
        return Err(S.Forbidden);
      }
      var s := sprints[id];
      if s.completedAt.Some? {
        return Err(S.AlreadyCompleted);
      }
      if S.Active(s, now) {
        return Err(S.NotActive);
      }
      if S.SprintTasks(tasks, id) != {} || s.retrospectives > 0 || s.meetings > 0 {
        return Err(S.NotEmpty);
      }
      sprints := sprints - {id};
      return Ok(());
    }

    method AddSprintTasks(tenant: string, id: string, taskIds: set<string>,
                          mayManage: bool) returns (r: Result<(), S.Error>)
      modifies this`tasks
      ensures match S.AddTasks(old(Planning()), tenant, id, taskIds, mayManage)
              case Ok(after) => Planning() == after && r.Ok?
              case Err(error) => Planning() == old(Planning()) && r == Err(error)
    {
      if id !in sprints || sprints[id].tenantId != tenant {
        return Err(S.NotFound);
      }
      if !mayManage {
        return Err(S.Forbidden);
      }
      if exists k :: k in taskIds && !(k in tasks && tasks[k].tenantId == tenant) {
        return Err(S.NotFound);
      }
      if exists k :: k in taskIds && k in tasks && tasks[k].projectId != sprints[id].projectId {
        return Err(S.OtherProject);
      }
      tasks := map k | k in tasks :: if k in taskIds then tasks[k].(sprintId := Some(id)) else tasks[k];
      return Ok(());
    }

    method RemoveSprintTask(tenant: string, id: string, taskId: string,
                            mayManage: bool) returns (r: Result<(), S.Error>)
      modifies this`tasks
      ensures match S.RemoveTask(old(Planning()), tenant, id, taskId, mayManage)
              case Ok(after) => Planning() == after && r.Ok?
              case Err(error) => Planning() == old(Planning()) && r == Err(error)
    {
      if id !in sprints || sprints[id].tenantId != tenant {
        return Err(S.NotFound);
      }
      if !mayManage {
        return Err(S.Forbidden);
      }
      if taskId !in tasks || tasks[taskId].tenantId != tenant || tasks[taskId].projectId != sprints[id].projectId {
        return Err(S.NotFound);
      }
      tasks := tasks[taskId := tasks[taskId].(sprintId := None)];
      return Ok(());
    }
  }

  // A project that has its default board keeps it.
  lemma EnsuringTwiceIsOnce(boards: seq<Board>, tenant: string, project: string, newIds: M.FreshIds)
    ensures var (after, board) := M.EnsureDefaultBoard(boards, tenant, project, newIds);
            M.EnsureDefaultBoard(after, tenant, project, newIds) == (after, board)
  {
    var i, j := IndexOf(boards, M.DefaultOf(tenant, project)), IndexOf(boards, M.OfProject(tenant, project));
    var (after, board) := M.EnsureDefaultBoard(boards, tenant, project, newIds);
    if i == |boards| {
      var at := if j < |boards| then j else |boards|;
      assert after[at] == board && M.DefaultOf(tenant, project)(board);
      assert forall m :: 0 <= m < at ==> after[m] == boards[m];
    }
  }
}
