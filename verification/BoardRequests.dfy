// What a board request leaves (src/agile/agile.service.ts): when a move is accepted, and the task
// and the boards it leaves.
module BoardRequests {
  import opened Seqs
  import opened Tasks
  import opened BoardMoves

  // ---------- Counts ----------

  // A task of the project stands in the column: it names it, or names none and has its status.
  predicate StandsIn(t: Task, tenant: string, project: string, c: Column) {
    && t.tenantId == tenant && t.projectId == project
    && if t.boardColumnId.Some? then t.boardColumnId.value == c.id
       else c.status.Some? && c.status.value == t.status
  }

  ghost function Fill(tasks: map<string, Task>, tenant: string, project: string, c: Column): nat {
    |set k | k in tasks && StandsIn(tasks[k], tenant, project, c)|
  }

  ghost function StatusFill(tasks: map<string, Task>, tenant: string, project: string, status: Status): nat {
    |set k | k in tasks && tasks[k].tenantId == tenant && tasks[k].projectId == project && tasks[k].status == status|
  }

  lemma CountsAreFills(tasks: map<string, Task>, tenant: string, project: string, c: Column, status: Status)
    ensures CountForColumn(tasks, tenant, project, c) == Fill(tasks, tenant, project, c)
    ensures CountWithStatus(tasks, tenant, project, status) == StatusFill(tasks, tenant, project, status)
  {
    assert CountedIds(tasks, tenant, project, c) == set k | k in tasks && StandsIn(tasks[k], tenant, project, c);
  }

  // ---------- The default board ----------

  predicate IsOf(b: Board, tenant: string, project: string) {
    b.tenantId == tenant && b.projectId == project
  }

  // b is the first of the boards of the project with the property.
  ghost predicate IsFirst(boards: seq<Board>, i: nat, tenant: string, project: string, isDefault: bool) {
    && i < |boards| && IsOf(boards[i], tenant, project) && (isDefault ==> boards[i].isDefault)
    && (forall j :: 0 <= j < i ==> !(IsOf(boards[j], tenant, project) && (isDefault ==> boards[j].isDefault)))
  }

  // The default board is the one marked so; else the first of the project, marked now; else a new
  // one with a column for each of the seven statuses, without limits.
  lemma EnsureLeaves(boards: seq<Board>, tenant: string, project: string, newIds: FreshIds, i: nat)
    ensures var (after, board) := EnsureDefaultBoard(boards, tenant, project, newIds);
            && (IsFirst(boards, i, tenant, project, true) ==> after == boards && board == boards[i])
            && ((forall b :: b in boards && IsOf(b, tenant, project) ==> !b.isDefault)
                && IsFirst(boards, i, tenant, project, false) ==>
                  board == boards[i].(isDefault := true) && after == boards[i := board])
            && ((forall b :: b in boards ==> !IsOf(b, tenant, project)) ==>
                  && after == boards + [board] && IsOf(board, tenant, project) && board.isDefault
                  && board.id == newIds.boardId && HasSevenColumns(board.columns, newIds))
  {
    FirstIsIndex(boards, i, tenant, project, true, DefaultOf(tenant, project));
    FirstIsIndex(boards, i, tenant, project, false, OfProject(tenant, project));
  }

  lemma FirstIsIndex(boards: seq<Board>, i: nat, tenant: string, project: string, isDefault: bool, p: Board -> bool)
    requires forall b :: p(b) <==> IsOf(b, tenant, project) && (isDefault ==> b.isDefault)
    ensures IsFirst(boards, i, tenant, project, isDefault) ==> IndexOf(boards, p) == i
  {
  }

  predicate HasSevenColumns(columns: seq<Column>, newIds: FreshIds) {
    && |columns| == 7
    && (forall i :: 0 <= i < 7 ==>
          columns[i].wipLimit.None? && columns[i].status.Some?
          && columns[i].id == newIds.columnId(columns[i].status.value))
    && columns[0].status == Some(BACKLOG) && columns[1].status == Some(TODO) && columns[2].status == Some(IN_PROGRESS)
    && columns[3].status == Some(REVIEW) && columns[4].status == Some(TESTING) && columns[5].status == Some(DONE)
    && columns[6].status == Some(CANCELLED)
  }

  // ---------- Columns ----------

  // The column an id names is one of a board of the project.
  lemma {:induction false} ColumnIsFound(boards: seq<Board>, tenant: string, project: string, id: string)
    ensures var found := FindColumn(boards, tenant, project, id);
            if found.Some? then
              found.value.id == id && exists b :: b in boards && IsOf(b, tenant, project) && found.value in b.columns
            else forall b, c :: b in boards && IsOf(b, tenant, project) && c in b.columns ==> c.id != id
  {
    var found := FindColumn(boards, tenant, project, id);
    assert forall c :: HasColumnId(id)(c) <==> c.id == id;
    if found.Some? {
      ColumnOfBoard(boards, tenant, project, found.value);
    }
    forall b, c | b in boards && IsOf(b, tenant, project) && c in b.columns
      ensures c in AllColumns(boards, tenant, project)
    {
      BoardsColumn(boards, tenant, project, b, c);
    }
  }

  lemma {:induction false} ColumnOfBoard(boards: seq<Board>, tenant: string, project: string, c: Column)
    requires c in AllColumns(boards, tenant, project)
    ensures exists b :: b in boards && IsOf(b, tenant, project) && c in b.columns
  {
    if !(OfProject(tenant, project)(boards[0]) && c in boards[0].columns) {
      ColumnOfBoard(boards[1..], tenant, project, c);
    }
  }

  lemma {:induction false} BoardsColumn(boards: seq<Board>, tenant: string, project: string, b: Board, c: Column)
    requires b in boards && IsOf(b, tenant, project) && c in b.columns
    ensures c in AllColumns(boards, tenant, project)
  {
    if b != boards[0] {
      BoardsColumn(boards[1..], tenant, project, b, c);
    }
  }

  // ---------- The limits ----------

  predicate IsLimited(c: Column) {
    c.wipLimit.Some? && c.wipLimit.value != 0
  }

  // The column of a board for a status.
  function ColumnFor(board: Board, status: Status): Option<Column> {
    FindFirst(board.columns, HasStatus(status))
  }

  // A move to another status finds room by the count of the status, when the default board limits
  // its column.
  ghost predicate StatusHasRoom(tasks: map<string, Task>, tenant: string, project: string, board: Board,
                                status: Status) {
    var c := ColumnFor(board, status);
    c.Some? && IsLimited(c.value) ==> StatusFill(tasks, tenant, project, status) < c.value.wipLimit.value
  }

  lemma StatusRoomIff(tasks: map<string, Task>, tenant: string, project: string, board: Board, status: Status)
    ensures StatusMoveAllowed(tasks, tenant, project, board, status)
       <==> StatusHasRoom(tasks, tenant, project, board, status)
    ensures var c := ColumnFor(board, status);
            if c.Some? then c.value in board.columns && c.value.status == Some(status)
            else forall x :: x in board.columns ==> x.status != Some(status)
  {
    assert forall x :: HasStatus(status)(x) <==> x.status == Some(status);
  }

  // ---------- Status changes ----------

  // The completion date that goes with a status: kept or set for DONE, cleared for any other.
  predicate IsStamped(before: Option<int>, status: Status, now: int, after: Option<int>) {
    if status != DONE then after.None? else if before.Some? then after == before else after == Some(now)
  }

  // A status change is accepted exactly for one's own task, by one who may move it, with room for
  // a new status and the gate of DONE open.
  lemma RestatusIsAcceptedIff(db: Db, tenant: string, taskId: string, status: Status, answers: Answers,
                              newIds: FreshIds, now: int)
    ensures UpdateTaskStatus(db, tenant, taskId, status, answers, newIds, now).1.Ok? <==>
              && taskId in db.tasks && db.tasks[taskId].tenantId == tenant && answers.mayMove
              && (var task := db.tasks[taskId];
                  task.status != status ==>
                    && StatusHasRoom(db.tasks, tenant, task.projectId,
                                     EnsureDefaultBoard(db.boards, tenant, task.projectId, newIds).1, status)
                    && (status == DONE ==> answers.doneGate))
  {
    if taskId in db.tasks {
      var project := db.tasks[taskId].projectId;
      StatusRoomIff(db.tasks, tenant, project, EnsureDefaultBoard(db.boards, tenant, project, newIds).1, status);
    }
  }

  // It gives the task the status, the default board's column for it or none, and its completion
  // date; the default board is ensured, and nothing else changes.
  lemma RestatusLeaves(db: Db, tenant: string, taskId: string, status: Status, answers: Answers, newIds: FreshIds,
                       now: int, after: Db, t: Task)
    requires UpdateTaskStatus(db, tenant, taskId, status, answers, newIds, now) == (after, Ok(()))
    requires taskId in after.tasks && t == after.tasks[taskId]
    ensures taskId in db.tasks && after.tasks == db.tasks[taskId := t] && after.sprints == db.sprints
    ensures var before := db.tasks[taskId];
            var (boards, board) := EnsureDefaultBoard(db.boards, tenant, before.projectId, newIds);
            && after.boards == boards && t.status == status && IsStamped(before.completedAt, status, now, t.completedAt)
            && (var c := ColumnFor(board, status);
                t.boardColumnId == if c.Some? then Some(c.value.id) else None)
            && t.(status := before.status, boardColumnId := before.boardColumnId, completedAt := before.completedAt)
               == before
  {
  }

  // ---------- Ordered moves ----------

  // The column a move names, if it is one of the project.
  function Named(db: Db, call: OrderCall): Option<Column>
    requires call.taskId in db.tasks
  {
    match call.dto.boardColumnId
    case Put(id) => if id == "" then None else FindColumn(db.boards, call.tenant, db.tasks[call.taskId].projectId, id)
    case _ => None
  }

  // The status a move leads to, if it leads to one: the one sent, else that of the named column.
  function Led(dto: OrderDto, column: Option<Column>): Option<Status> {
    if dto.status.Some? then dto.status else if column.Some? then column.value.status else None
  }

  ghost predicate OrderHasRoom(db: Db, call: OrderCall)
    requires call.taskId in db.tasks
  {
    var task, c := db.tasks[call.taskId], Named(db, call);
    var status := Led(call.dto, c);
    if c.Some? && IsLimited(c.value) && !(task.boardColumnId == Some(c.value.id) && status == Some(task.status))
    then Fill(db.tasks, call.tenant, task.projectId, c.value) < c.value.wipLimit.value
    else status.Some? && status.value != task.status ==>
        StatusHasRoom(db.tasks, call.tenant, task.projectId,
                      EnsureDefaultBoard(db.boards, call.tenant, task.projectId, call.newIds).1, status.value)
  }

  // An ordered move is accepted exactly for one's own task, by one who may move it, when the
  // column and the sprint it names are the project's, there is room, and the gate of DONE is open.
  lemma OrderIsAcceptedIff(db: Db, call: OrderCall)
    ensures Order(db, call).1.Ok? <==>
              && call.taskId in db.tasks && db.tasks[call.taskId].tenantId == call.tenant && call.answers.mayMove
              && (var task, dto := db.tasks[call.taskId], call.dto;
                  && (dto.boardColumnId.Put? ==> Named(db, call).Some?)
                  && (dto.sprintId.Put? ==>
                        && dto.sprintId.value != "" && dto.sprintId.value in db.sprints
                        && db.sprints[dto.sprintId.value] == task.projectId)
                  && OrderHasRoom(db, call)
                  && (Led(dto, Named(db, call)) == Some(DONE) && task.status != DONE ==> call.answers.doneGate))
  {
    if call.taskId in db.tasks {
      var task := db.tasks[call.taskId];
      NamedIsNext(db, call, task);
      RoomIff(db, call, task);
    }
  }

  lemma NamedIsNext(db: Db, call: OrderCall, task: Task)
    requires call.taskId in db.tasks && task == db.tasks[call.taskId]
    ensures NextColumn(db, call.tenant, task, call.dto) == Named(db, call)
    ensures NextStatus(Named(db, call), call.dto) == Led(call.dto, Named(db, call))
  {
  }

  lemma RoomIff(db: Db, call: OrderCall, task: Task)
    requires call.taskId in db.tasks && task == db.tasks[call.taskId]
    ensures CheckLimits(db, call.tenant, task, Named(db, call), Led(call.dto, Named(db, call)), call.newIds).1
       <==> OrderHasRoom(db, call)
  {
    var c, status := Named(db, call), Led(call.dto, Named(db, call));
    if c.Some? {
      CountsAreFills(db.tasks, call.tenant, task.projectId, c.value, DONE);
    }
    if status.Some? {
      StatusRoomIff(db.tasks, call.tenant, task.projectId,
                    EnsureDefaultBoard(db.boards, call.tenant, task.projectId, call.newIds).1, status.value);
    }
  }

  // It gives the task the position that is sent, the column, the sprint and the status as they
  // are sent, and the completion date of a status it leads to; no other task changes.
  lemma OrderLeaves(db: Db, call: OrderCall, after: Db, t: Task)
    requires Order(db, call) == (after, Ok(())) && call.taskId in after.tasks && t == after.tasks[call.taskId]
    ensures call.taskId in db.tasks && after.tasks == db.tasks[call.taskId := t] && after.sprints == db.sprints
    ensures var before, status := db.tasks[call.taskId], Led(call.dto, Named(db, call));
            && t.sortOrder == call.dto.sortOrder && Patches(call.dto.sprintId, before.sprintId, t.sprintId)
            && Patches(call.dto.boardColumnId, before.boardColumnId, t.boardColumnId)
            && t.status == (if status.Some? then status.value else before.status)
            && (if status.Some? then IsStamped(before.completedAt, status.value, call.now, t.completedAt)
                else t.completedAt == before.completedAt)
            && t.(sortOrder := before.sortOrder, sprintId := before.sprintId, boardColumnId := before.boardColumnId,
                  status := before.status, completedAt := before.completedAt) == before
  {
    OrderTouchesOne(db, call, after, Ok(()));
    NamedIsNext(db, call, db.tasks[call.taskId]);
  }

  // A refused move, of either kind, leaves every task and sprint as it was.
  lemma RefusedOrderLeaves(db: Db, call: OrderCall, after: Db)
    requires Order(db, call).1.Err? && after == Order(db, call).0
    ensures after.tasks == db.tasks && after.sprints == db.sprints
  {
    OrderTouchesOne(db, call, after, Order(db, call).1);
    if call.taskId in db.tasks && after != db {
      var task := db.tasks[call.taskId];
      var column := NextColumn(db, call.tenant, task, call.dto);
      var boards := CheckLimits(db, call.tenant, task, column, NextStatus(column, call.dto), call.newIds).0;
      FinishTouchesOne(db.(boards := boards), call.taskId, call.dto, NextStatus(column, call.dto), call.answers,
                       call.now);
    }
  }

  lemma RefusedRestatusLeaves(db: Db, tenant: string, taskId: string, status: Status, answers: Answers,
                              newIds: FreshIds, now: int)
    ensures var (after, outcome) := UpdateTaskStatus(db, tenant, taskId, status, answers, newIds, now);
            outcome.Err? ==> after.tasks == db.tasks && after.sprints == db.sprints
  {
  }
}
