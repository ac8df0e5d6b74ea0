// Moving tasks on the board (src/agile/agile.service.ts, updateTaskOrder and updateTaskStatus) as
// functions on the task, board and sprint tables, with the work-in-progress limit.
module BoardMoves {
  import opened Seqs
  import opened Tasks

  // sprints maps a sprint id to its project.
  datatype Db = Db(tasks: map<string, Task>, boards: seq<Board>, sprints: map<string, string>)

  datatype Error = NotFound | Forbidden | WipLimitReached | DoneGate | ForeignKeyViolation

  datatype OrderDto = OrderDto(sortOrder: int, status: Option<Status>, sprintId: Patch<string>,
                               boardColumnId: Patch<string>)

  // What other services answer for this request: may the user move the task, may it be done.
  datatype Answers = Answers(mayMove: bool, doneGate: bool)

  // Ids a newly created default board would get.
  datatype FreshIds = FreshIds(boardId: string, columnId: Status -> string)

  // One updateTaskOrder request.
  datatype OrderCall = OrderCall(tenant: string, taskId: string, dto: OrderDto, answers: Answers, newIds: FreshIds,
                                 now: int)

  predicate Truthy(limit: Option<int>) {
    limit.Some? && limit.value != 0
  }

  // ---------- Counting ----------

  predicate CountsFor(t: Task, tenant: string, project: string, c: Column) {
    && t.tenantId == tenant && t.projectId == project
    && (t.boardColumnId == Some(c.id) || (t.boardColumnId.None? && c.status == Some(t.status)))
  }

  function CountedIds(tasks: map<string, Task>, tenant: string, project: string, c: Column): set<string> {
    set k | k in tasks && CountsFor(tasks[k], tenant, project, c)
  }

  // countTasksForColumn: the tasks of the column and the column-less tasks of its status.
  function CountForColumn(tasks: map<string, Task>, tenant: string, project: string, c: Column): nat {
    |CountedIds(tasks, tenant, project, c)|
  }

  function CountWithStatus(tasks: map<string, Task>, tenant: string, project: string, status: Status): nat {
    |set k | k in tasks && tasks[k].tenantId == tenant && tasks[k].projectId == project && tasks[k].status == status|
  }

  // ---------- The default board ----------

  function OfProject(tenant: string, project: string): Board -> bool {
    (b: Board) => b.tenantId == tenant && b.projectId == project
  }

  function DefaultOf(tenant: string, project: string): Board -> bool {
    (b: Board) => b.tenantId == tenant && b.projectId == project && b.isDefault
  }

  function DefaultColumns(columnId: Status -> string): seq<Column> {
    [Column(columnId(BACKLOG), Some(BACKLOG), None), Column(columnId(TODO), Some(TODO), None),
     Column(columnId(IN_PROGRESS), Some(IN_PROGRESS), None), Column(columnId(REVIEW), Some(REVIEW), None),
     Column(columnId(TESTING), Some(TESTING), None), Column(columnId(DONE), Some(DONE), None),
     Column(columnId(CANCELLED), Some(CANCELLED), None)]
  }

  // ensureDefaultBoard: the default board, else the oldest board made default, else a new one.
  function EnsureDefaultBoard(boards: seq<Board>, tenant: string, project: string,
                              newIds: FreshIds): (r: (seq<Board>, Board))
    ensures r.1 in r.0
  {
    var i := IndexOf(boards, DefaultOf(tenant, project));
    var j := IndexOf(boards, OfProject(tenant, project));
    if i < |boards| then (boards, boards[i])
    else if j < |boards| then
      var promoted := boards[j].(isDefault := true);
      assert boards[j := promoted][j] == promoted;
      (boards[j := promoted], promoted)
    else
      var created := Board(newIds.boardId, tenant, project, true, DefaultColumns(newIds.columnId));
      assert (boards + [created])[|boards|] == created;
      (boards + [created], created)
  }

  // assertWipLimitAllowsMove, on the default board already ensured.
  predicate StatusMoveAllowed(tasks: map<string, Task>, tenant: string, project: string, board: Board, status: Status) {
    var column := FindFirst(board.columns, HasStatus(status));
    column.Some? && Truthy(column.value.wipLimit) ==>
        CountWithStatus(tasks, tenant, project, status) < column.value.wipLimit.value
  }

  // ---------- The moves ----------

  // resolveCompletedAt, applied: DONE stamps a task that has no stamp, anything else clears it.
  function Stamped(completedAt: Option<int>, status: Status, now: int): Option<int> {
    if status != DONE then None else if completedAt.Some? then completedAt else Some(now)
  }

  function HasColumnId(id: string): Column -> bool {
    (c: Column) => c.id == id
  }

  function AllColumns(boards: seq<Board>, tenant: string, project: string): seq<Column> {
    if boards == [] then []
    else (if OfProject(tenant, project)(boards[0]) then boards[0].columns
          else []) + AllColumns(boards[1..], tenant, project)
  }

  // getTenantBoardColumnForProjectOrThrow
  function FindColumn(boards: seq<Board>, tenant: string, project: string, id: string): Option<Column> {
    FindFirst(AllColumns(boards, tenant, project), HasColumnId(id))
  }

  predicate NamesColumn(dto: OrderDto) {
    dto.boardColumnId.Put? && dto.boardColumnId.value != ""
  }

  function Moved(t: Task, dto: OrderDto, nextStatus: Option<Status>, now: int): Task {
    t.(sortOrder := dto.sortOrder,
       status := nextStatus.GetOr(t.status),
       boardColumnId := dto.boardColumnId.Apply(t.boardColumnId),
       sprintId := dto.sprintId.Apply(t.sprintId),
       completedAt := if nextStatus.Some? then Stamped(t.completedAt, nextStatus.value, now) else t.completedAt)
  }

  // The checks after the limit, and the write.
  function FinishOrder(db: Db, taskId: string, dto: OrderDto, nextStatus: Option<Status>, answers: Answers,
                       now: int): (Db, Result<(), Error>)
    requires taskId in db.tasks
  {
    var task := db.tasks[taskId];
    if nextStatus == Some(DONE) && task.status != DONE && !answers.doneGate then (db, Err(DoneGate))
    else if dto.sprintId.Put? && dto.sprintId.value != ""
    && !(dto.sprintId.value in db.sprints && db.sprints[dto.sprintId.value] == task.projectId)
      then (db, Err(NotFound))
    else if dto.boardColumnId == Put("") || dto.sprintId == Put("") then (db, Err(ForeignKeyViolation))
    else (db.(tasks := db.tasks[taskId := Moved(task, dto, nextStatus, now)]), Ok(()))
  }

  // The column the request names, if it is a column of the task's project.
  function NextColumn(db: Db, tenant: string, task: Task, dto: OrderDto): Option<Column> {
    if NamesColumn(dto) then FindColumn(db.boards, tenant, task.projectId, dto.boardColumnId.value) else None
  }

  // The status the move gives the task: the one sent, else the column's own.
  function NextStatus(column: Option<Column>, dto: OrderDto): Option<Status> {
    dto.status.OrElse(if column.Some? then column.value.status else None)
  }

  predicate LimitApplies(task: Task, column: Option<Column>, nextStatus: Option<Status>) {
    column.Some? && Truthy(column.value.wipLimit)
    && (task.boardColumnId != Some(column.value.id) || Some(task.status) != nextStatus)
  }

  // The limit checks: whether the move may go on, and the boards after any ensureDefaultBoard.
  function CheckLimits(db: Db, tenant: string, task: Task, column: Option<Column>, nextStatus: Option<Status>,
                       newIds: FreshIds): (seq<Board>, bool) {
    if LimitApplies(task, column, nextStatus) then
      (db.boards, CountForColumn(db.tasks, tenant, task.projectId, column.value) < column.value.wipLimit.value)
    else if nextStatus.Some? && nextStatus.value != task.status then
      var (boards, board) := EnsureDefaultBoard(db.boards, tenant, task.projectId, newIds);
      (boards, StatusMoveAllowed(db.tasks, tenant, task.projectId, board, nextStatus.value))
    else (db.boards, true)
  }

  function UpdateTaskOrder(db: Db, tenant: string, taskId: string, dto: OrderDto, answers: Answers, newIds: FreshIds,
                           now: int): (Db, Result<(), Error>) {
    if taskId !in db.tasks || db.tasks[taskId].tenantId != tenant then (db, Err(NotFound))
    else if !answers.mayMove then (db, Err(Forbidden))
    else
      var task := db.tasks[taskId];
      var column := NextColumn(db, tenant, task, dto);
      if NamesColumn(dto) && column.None? then (db, Err(NotFound))
      else
        var (boards, allowed) := CheckLimits(db, tenant, task, column, NextStatus(column, dto), newIds);
        if !allowed then (db.(boards := boards), Err(WipLimitReached))
        else FinishOrder(db.(boards := boards), taskId, dto, NextStatus(column, dto), answers, now)
  }

  function UpdateTaskStatus(db: Db, tenant: string, taskId: string, status: Status, answers: Answers,
                            newIds: FreshIds, now: int): (Db, Result<(), Error>) {
    if taskId !in db.tasks || db.tasks[taskId].tenantId != tenant then (db, Err(NotFound))
    else if !answers.mayMove then (db, Err(Forbidden))
    else
      var task := db.tasks[taskId];
      var (boards, board) := EnsureDefaultBoard(db.boards, tenant, task.projectId, newIds);
      var ready := db.(boards := boards);
      var target := FindFirst(board.columns, HasStatus(status));
      if task.status != status && !StatusMoveAllowed(db.tasks, tenant, task.projectId, board, status)
        then (ready, Err(WipLimitReached))
      else if status == DONE && task.status != DONE && !answers.doneGate then (ready, Err(DoneGate))
      else
        var moved := task.(status := status, boardColumnId := if target.Some? then Some(target.value.id) else None,
                           completedAt := Stamped(task.completedAt, status, now));
        (ready.(tasks := db.tasks[taskId := moved]), Ok(()))
  }

  // ---------- What a move may change ----------

  function Order(db: Db, call: OrderCall): (Db, Result<(), Error>) {
    UpdateTaskOrder(db, call.tenant, call.taskId, call.dto, call.answers, call.newIds, call.now)
  }

  // The task as an accepted move leaves it.
  function MovedTask(db: Db, call: OrderCall): Task
    requires call.taskId in db.tasks
  {
    var task := db.tasks[call.taskId];
    Moved(task, call.dto, NextStatus(NextColumn(db, call.tenant, task, call.dto), call.dto), call.now)
  }

  lemma FinishTouchesOne(db: Db, taskId: string, dto: OrderDto, nextStatus: Option<Status>, answers: Answers, now: int)
    requires taskId in db.tasks
    ensures var (after, outcome) := FinishOrder(db, taskId, dto, nextStatus, answers, now);
            && (outcome.Err? ==> after == db)
            && (outcome.Ok? ==>
                  after == db.(tasks := db.tasks[taskId := Moved(db.tasks[taskId], dto, nextStatus, now)]))
  {
  }

  // A refused move leaves the task table alone; an accepted one rewrites its one task.
  lemma OrderTouchesOne(db: Db, call: OrderCall, after: Db, outcome: Result<(), Error>)
    requires Order(db, call) == (after, outcome)
    ensures outcome.Err? ==> after.tasks == db.tasks
    ensures outcome.Ok? ==> call.taskId in db.tasks && after.tasks == db.tasks[call.taskId := MovedTask(db, call)]
  {
    if call.taskId in db.tasks {
      var task := db.tasks[call.taskId];
      var column := NextColumn(db, call.tenant, task, call.dto);
      var boards := CheckLimits(db, call.tenant, task, column, NextStatus(column, call.dto), call.newIds).0;
      FinishTouchesOne(db.(boards := boards), call.taskId, call.dto, NextStatus(column, call.dto), call.answers,
                       call.now);
    }
  }

  // The boards stay, or become what ensureDefaultBoard makes of them; a move that names a column
  // has found that column.
  lemma OrderEnsuresBoard(db: Db, call: OrderCall, after: Db, outcome: Result<(), Error>)
    requires Order(db, call) == (after, outcome) && after.boards != db.boards
    ensures call.taskId in db.tasks
    ensures var task := db.tasks[call.taskId];
            && (NamesColumn(call.dto) ==> NextColumn(db, call.tenant, task, call.dto).Some?)
            && after.boards == EnsureDefaultBoard(db.boards, call.tenant, task.projectId, call.newIds).0
  {
    var task := db.tasks[call.taskId];
    var column := NextColumn(db, call.tenant, task, call.dto);
    assert after.boards == CheckLimits(db, call.tenant, task, column, NextStatus(column, call.dto), call.newIds).0;
  }

  // ---------- Moves of either kind ----------

  // A request of either method.
  datatype Move = Ordered(order: OrderCall)
                | Restatused(caller: string, task: string, status: Status, allowed: Answers, ids: FreshIds, at: int)
  {
    function Tenant(): string {
      if Ordered? then order.tenant else caller
    }

    function TaskId(): string {
      if Ordered? then order.taskId else task
    }

    function NewIds(): FreshIds {
      if Ordered? then order.newIds else ids
    }

    function Answered(): Answers {
      if Ordered? then order.answers else allowed
    }

    predicate Names() {
      Ordered? && NamesColumn(order.dto)
    }
  }

  function Step(db: Db, m: Move): (Db, Result<(), Error>) {
    match m
    case Ordered(call) => Order(db, call)
    case Restatused(caller, task, status, allowed, ids, at) =>
      UpdateTaskStatus(db, caller, task, status, allowed, ids, at)
  }

  // The default board of a task's project, as ensureDefaultBoard gives it.
  function DefaultBoard(db: Db, m: Move): Board
    requires m.TaskId() in db.tasks
  {
    EnsureDefaultBoard(db.boards, m.Tenant(), db.tasks[m.TaskId()].projectId, m.NewIds()).1
  }

  // The task as an accepted move leaves it.
  function Written(db: Db, m: Move): Task
    requires m.TaskId() in db.tasks
  {
    if m.Ordered? then MovedTask(db, m.order)
    else
      var task := db.tasks[m.TaskId()];
      var target := FindFirst(DefaultBoard(db, m).columns, HasStatus(m.status));
      task.(status := m.status, boardColumnId := if target.Some? then Some(target.value.id) else None,
            completedAt := Stamped(task.completedAt, m.status, m.at))
  }

  lemma StepTouchesOne(db: Db, m: Move)
    ensures Step(db, m).1.Err? ==> Step(db, m).0.tasks == db.tasks
    ensures Step(db, m).1.Ok? ==>
              && m.TaskId() in db.tasks && db.tasks[m.TaskId()].tenantId == m.Tenant()
              && Step(db, m).0.tasks == db.tasks[m.TaskId() := Written(db, m)]
  {
    if m.Ordered? {
      OrderTouchesOne(db, m.order, Step(db, m).0, Step(db, m).1);
      TaskBelongsToCaller(db, m.order);
    }
  }

  lemma TaskBelongsToCaller(db: Db, call: OrderCall)
    ensures Order(db, call).1.Ok? ==> call.taskId in db.tasks && db.tasks[call.taskId].tenantId == call.tenant
  {
  }

  function After(db: Db, m: Move): Db {
    Step(db, m).0
  }

  function Run(db: Db, moves: seq<Move>): Db
    decreases |moves|
  {
    if moves == [] then db else Run(After(db, moves[0]), moves[1..])
  }

  // ---------- Done iff stamped ----------

  ghost predicate DoneIffCompleted(tasks: map<string, Task>) {
    forall k :: k in tasks ==> (tasks[k].status == DONE <==> tasks[k].completedAt.Some?)
  }

  lemma StepKeepsDoneIffCompleted(db: Db, m: Move)
    requires DoneIffCompleted(db.tasks)
    ensures DoneIffCompleted(After(db, m).tasks)
  {
    StepTouchesOne(db, m);
  }

  // Over any run of moves a task is DONE exactly when it carries a completion date.
  lemma {:induction false} RunKeepsDoneIffCompleted(db: Db, moves: seq<Move>)
    requires DoneIffCompleted(db.tasks)
    ensures DoneIffCompleted(Run(db, moves).tasks)
    decreases |moves|
  {
    if moves != [] {
      StepKeepsDoneIffCompleted(db, moves[0]);
      RunKeepsDoneIffCompleted(After(db, moves[0]), moves[1..]);
    }
  }

  // ---------- Who breaks a limit ----------

  // Changing one task changes the count by that task alone.
  lemma CountAfterMove(tasks: map<string, Task>, taskId: string, t: Task, tenant: string, project: string, c: Column)
    requires taskId in tasks
    ensures var before, after := CountForColumn(tasks, tenant, project, c),
            CountForColumn(tasks[taskId := t], tenant, project, c);
            after == before + (if CountsFor(t, tenant, project, c) then 1
                               else 0) - (if CountsFor(tasks[taskId], tenant, project, c) then 1 else 0)
  {
    var before, after := CountedIds(tasks, tenant, project, c), CountedIds(tasks[taskId := t], tenant, project, c);
    assert forall k :: k != taskId ==> (k in before <==> k in after);
    SameButOne(before, after, taskId);
  }

  lemma SameButOne<T>(a: set<T>, b: set<T>, x: T)
    requires forall k :: k != x ==> (k in a <==> k in b)
    ensures |b| == |a| + (if x in b then 1 else 0) - (if x in a then 1 else 0)
  {
    assert a - {x} == b - {x};
    assert x in a ==> a == (a - {x}) + {x};
    assert x in b ==> b == (b - {x}) + {x};
    assert x !in a ==> a == a - {x};
    assert x !in b ==> b == b - {x};
  }

  // Within a project a column id names one column.
  ghost predicate ColumnIdsUnique(boards: seq<Board>, tenant: string, project: string) {
    NoDuplicates(Map(AllColumns(boards, tenant, project), ColumnId()))
  }

  lemma FindsTheColumn(boards: seq<Board>, tenant: string, project: string, c: Column)
    requires ColumnIdsUnique(boards, tenant, project) && c in AllColumns(boards, tenant, project)
    ensures FindColumn(boards, tenant, project, c.id) == Some(c)
  {
    var all := AllColumns(boards, tenant, project);
    var i :| 0 <= i < |all| && all[i] == c;
    assert HasColumnId(c.id)(c);
    var j := IndexOf(all, HasColumnId(c.id));
    assert Map(all, ColumnId())[i] == Map(all, ColumnId())[j];
  }

  // The one case that raises a count is a move into the named column, and the check on that path
  // has seen fewer tasks than the limit.
  lemma RaisedOnlyBelowLimit(db: Db, call: OrderCall, project: string, c: Column)
    requires NamesColumn(call.dto) && Order(db, call).1.Ok? && call.taskId in db.tasks
    requires ColumnIdsUnique(db.boards, call.tenant, project) && c in AllColumns(db.boards, call.tenant, project)
    requires c.wipLimit.Some? && c.wipLimit.value > 0
    requires CountsFor(MovedTask(db, call), call.tenant, project, c)
    requires !CountsFor(db.tasks[call.taskId], call.tenant, project, c)
    ensures CountForColumn(db.tasks, call.tenant, project, c) < c.wipLimit.value
  {
    assert db.tasks[call.taskId].projectId == project && call.dto.boardColumnId.value == c.id;
    FindsTheColumn(db.boards, call.tenant, project, c);
    assert LimitApplies(db.tasks[call.taskId], Some(c), NextStatus(Some(c), call.dto));
  }

  // The caller's task, which he may move, and may move to DONE if it gets there.
  predicate MayGo(db: Db, m: Move) {
    && m.TaskId() in db.tasks && db.tasks[m.TaskId()].tenantId == m.Tenant() && m.Answered().mayMove
    && (Written(db, m).status == DONE && db.tasks[m.TaskId()].status != DONE ==> m.Answered().doneGate)
  }

  // What an ordered move names exists.
  predicate NamesExist(db: Db, call: OrderCall)
    requires call.taskId in db.tasks
  {
    var task, dto := db.tasks[call.taskId], call.dto;
    && dto.boardColumnId != Put("") && (NamesColumn(dto) ==> NextColumn(db, call.tenant, task, dto).Some?)
    && dto.sprintId != Put("")
    && (dto.sprintId.Put? ==>
          dto.sprintId.value in db.sprints && db.sprints[dto.sprintId.value] == task.projectId)
  }

  // The check of the limit: by the count of the named column, or by the count of a new status.
  predicate LimitAllows(db: Db, m: Move)
    requires m.TaskId() in db.tasks
  {
    var task, t := db.tasks[m.TaskId()], Written(db, m);
    var column := if m.Ordered? then NextColumn(db, m.Tenant(), task, m.order.dto) else None;
    var nextStatus := if m.Ordered? then NextStatus(column, m.order.dto) else Some(m.status);
    if LimitApplies(task, column, nextStatus)
      then CountForColumn(db.tasks, m.Tenant(), task.projectId, column.value) < column.value.wipLimit.value
    else t.status != task.status ==>
        StatusMoveAllowed(db.tasks, m.Tenant(), task.projectId, DefaultBoard(db, m), t.status)
  }

  predicate Accepted(db: Db, m: Move) {
    MayGo(db, m) && (m.Ordered? ==> NamesExist(db, m.order)) && LimitAllows(db, m)
  }

  // These are the guards of both methods.
  lemma AcceptedIff(db: Db, m: Move)
    ensures Step(db, m).1.Ok? <==> Accepted(db, m)
  {
  }

  // A move that the guards let through enters a column of a limit although it is full.
  predicate Overfills(db: Db, m: Move, owner: string, project: string, c: Column)
    requires c.wipLimit.Some?
  {
    && Accepted(db, m)
    && CountsFor(Written(db, m), owner, project, c) && !CountsFor(db.tasks[m.TaskId()], owner, project, c)
    && CountForColumn(db.tasks, owner, project, c) >= c.wipLimit.value
  }

  // A move of either kind leaves a column at or below the larger of its limit and what it held
  // exactly when it does not enter the column while it is full.
  lemma MoveRespectsLimitIff(db: Db, m: Move, owner: string, project: string, c: Column)
    requires c.wipLimit.Some?
    ensures CountForColumn(After(db, m).tasks, owner, project, c)
         <= Max(c.wipLimit.value, CountForColumn(db.tasks, owner, project, c))
       <==> !Overfills(db, m, owner, project, c)
  {
    StepTouchesOne(db, m);
    AcceptedIff(db, m);
    if Step(db, m).1.Ok? {
      CountAfterMove(db.tasks, m.TaskId(), Written(db, m), owner, project, c);
    }
  }

  // A move that names a column is checked by the column's own count and never overfills one.
  lemma NamingMoveNeverOverfills(db: Db, m: Move, owner: string, project: string, c: Column)
    requires m.Names()
    requires ColumnIdsUnique(db.boards, owner, project) && c in AllColumns(db.boards, owner, project)
    requires c.wipLimit.Some? && c.wipLimit.value > 0
    ensures !Overfills(db, m, owner, project, c)
  {
    StepTouchesOne(db, m);
    AcceptedIff(db, m);
    if Overfills(db, m, owner, project, c) {
      RaisedOnlyBelowLimit(db, m.order, project, c);
    }
  }

  // Every task of the column carries its status.
  ghost predicate Matched(tasks: map<string, Task>, owner: string, project: string, c: Column) {
    forall k :: k in tasks && tasks[k].tenantId == owner && tasks[k].projectId == project ==>
      (tasks[k].boardColumnId == Some(c.id) ==> c.status == Some(tasks[k].status))
  }

  lemma MatchedCountsStatus(tasks: map<string, Task>, owner: string, project: string, c: Column, status: Status)
    requires Matched(tasks, owner, project, c) && c.status == Some(status)
    ensures CountForColumn(tasks, owner, project, c) <= CountWithStatus(tasks, owner, project, status)
  {
    var same := set k | k in tasks && tasks[k].tenantId == owner && tasks[k].projectId == project
                        && tasks[k].status == status;
    assert CountedIds(tasks, owner, project, c) <= same;
    SubsetSize(CountedIds(tasks, owner, project, c), same);
  }

  // The other moves are checked by the count of a status. A status change overfills the column of
  // the default board with the new status exactly when it may be made, enters the column, and the
  // limit lies above the count of the status but not above the column's own.
  lemma RestatusOverfillsIff(db: Db, m: Move, c: Column)
    requires m.Restatused? && m.TaskId() in db.tasks && db.tasks[m.TaskId()].tenantId == m.Tenant()
    requires m.status != db.tasks[m.TaskId()].status
    requires FindFirst(DefaultBoard(db, m).columns, HasStatus(m.status)) == Some(c)
    requires c.wipLimit.Some? && c.wipLimit.value != 0
    ensures var task := db.tasks[m.TaskId()];
            Overfills(db, m, task.tenantId, task.projectId, c) <==>
              && m.allowed.mayMove && (m.status == DONE ==> m.allowed.doneGate)
              && !CountsFor(task, task.tenantId, task.projectId, c)
              && CountWithStatus(db.tasks, task.tenantId, task.projectId, m.status) < c.wipLimit.value
              <= CountForColumn(db.tasks, task.tenantId, task.projectId, c)
  {
    assert HasStatus(m.status)(c);
  }

  // An ordered move that names no column does so exactly when it may be made, sends a new status
  // to a task that has or is left no column, what it names exists, and the limit lies between the
  // same two counts.
  lemma OrderOverfillsIff(db: Db, m: Move, status: Status, c: Column)
    requires m.Ordered? && !m.Names() && m.TaskId() in db.tasks && db.tasks[m.TaskId()].tenantId == m.Tenant()
    requires m.order.dto.status == Some(status) && status != db.tasks[m.TaskId()].status
    requires FindFirst(DefaultBoard(db, m).columns, HasStatus(status)) == Some(c)
    requires c.wipLimit.Some? && c.wipLimit.value != 0
    ensures var task, dto := db.tasks[m.TaskId()], m.order.dto;
            Overfills(db, m, task.tenantId, task.projectId, c) <==>
              && m.order.answers.mayMove && (status == DONE ==> m.order.answers.doneGate)
              && NamesExist(db, m.order) && (dto.boardColumnId.Clear? || task.boardColumnId.None?)
              && task.boardColumnId != Some(c.id)
              && CountWithStatus(db.tasks, task.tenantId, task.projectId, status) < c.wipLimit.value
              <= CountForColumn(db.tasks, task.tenantId, task.projectId, c)
  {
    assert HasStatus(status)(c);
  }

  // A move that names no column and changes no status is not checked at all: it overfills a
  // column exactly when it may be made and enters it while it is full.
  lemma UncheckedOverfillsIff(db: Db, m: Move, owner: string, project: string, c: Column)
    requires !m.Names() && m.TaskId() in db.tasks && Written(db, m).status == db.tasks[m.TaskId()].status
    requires c.wipLimit.Some?
    ensures Overfills(db, m, owner, project, c) <==>
              && MayGo(db, m) && (m.Ordered? ==> NamesExist(db, m.order))
              && CountsFor(Written(db, m), owner, project, c) && !CountsFor(db.tasks[m.TaskId()], owner, project, c)
              && c.wipLimit.value <= CountForColumn(db.tasks, owner, project, c)
  {
  }

  // So the count of the status guards the column as long as all tasks of the column carry it.
  lemma StatusCountSuffices(db: Db, m: Move, owner: string, project: string, c: Column)
    requires !m.Names() && m.TaskId() in db.tasks && Written(db, m).status != db.tasks[m.TaskId()].status
    requires FindFirst(DefaultBoard(db, m).columns, HasStatus(Written(db, m).status)) == Some(c)
    requires c.wipLimit.Some? && c.wipLimit.value != 0 && Matched(db.tasks, owner, project, c)
    ensures !Overfills(db, m, owner, project, c)
  {
    var status := Written(db, m).status;
    assert HasStatus(status)(c);
    MatchedCountsStatus(db.tasks, owner, project, c, status);
  }

  // An instance: a column for TODO with a limit of one holds a task in REVIEW, put there by a
  // move that sent both. The count of TODO is zero, so a second task may enter.
  lemma UnmatchedExample(ids: FreshIds, t: Task) returns (db: Db, m: Move, c: Column)
    ensures c.wipLimit == Some(1) && c in AllColumns(db.boards, "a", "p") && ColumnIdsUnique(db.boards, "a", "p")
    ensures Overfills(db, m, "a", "p", c)
    ensures CountForColumn(db.tasks, "a", "p", c) == 1 && CountForColumn(After(db, m).tasks, "a", "p", c) == 2
  {
    c := Column("todo", Some(TODO), Some(1));
    var board := Board("b", "a", "p", true, [c]);
    var review := t.(tenantId := "a", projectId := "p", status := REVIEW, boardColumnId := Some("todo"));
    var waiting := t.(tenantId := "a", projectId := "p", status := BACKLOG, boardColumnId := None);
    db := Db(map["1" := review, "2" := waiting], [board], map[]);
    m := Restatused("a", "2", TODO, Answers(true, true), ids, 0);
    assert OfProject("a", "p")(board) && DefaultOf("a", "p")(board) && HasStatus(TODO)(c);
    assert AllColumns(db.boards, "a", "p") == [c];
    assert CountedIds(db.tasks, "a", "p", c) == {"1"};
    NoneCounted(db.tasks, "a", "p", TODO);
    StepTouchesOne(db, m);
    AcceptedIff(db, m);
    CountAfterMove(db.tasks, "2", Written(db, m), "a", "p", c);
  }

  lemma NoneCounted(tasks: map<string, Task>, owner: string, project: string, status: Status)
    requires forall k :: k in tasks ==> tasks[k].status != status
    ensures CountWithStatus(tasks, owner, project, status) == 0
  {
  }

  // ---------- The limit along a run ----------

  // Boards keep their columns; one may become default or be added.
  ghost predicate BoardsGrow(before: seq<Board>, after: seq<Board>) {
    |before| <= |after| && forall i :: 0 <= i < |before| ==>
      after[i].tenantId == before[i].tenantId && after[i].projectId == before[i].projectId
      && after[i].columns == before[i].columns
  }

  // Either kind of move leaves the boards, or ensures the default one.
  lemma StepEnsuresBoard(db: Db, m: Move)
    requires After(db, m).boards != db.boards
    ensures m.TaskId() in db.tasks
    ensures After(db, m).boards
            == EnsureDefaultBoard(db.boards, m.Tenant(), db.tasks[m.TaskId()].projectId, m.NewIds()).0
  {
    if m.Ordered? {
      OrderEnsuresBoard(db, m.order, Step(db, m).0, Step(db, m).1);
    }
  }

  // No move adds, removes or changes a column of a project that has one.
  lemma StepKeepsColumns(db: Db, m: Move, owner: string, project: string)
    requires AllColumns(db.boards, owner, project) != []
    ensures AllColumns(After(db, m).boards, owner, project) == AllColumns(db.boards, owner, project)
  {
    if After(db, m).boards != db.boards {
      StepEnsuresBoard(db, m);
      ProjectHasBoard(db.boards, owner, project);
      EnsuringKeepsColumns(db.boards, m.Tenant(), db.tasks[m.TaskId()].projectId, m.NewIds(), owner, project);
    }
  }

  lemma {:induction false} ProjectHasBoard(boards: seq<Board>, tenant: string, project: string)
    ensures AllColumns(boards, tenant, project) != [] ==> IndexOf(boards, OfProject(tenant, project)) < |boards|
  {
    if boards != [] {
      ProjectHasBoard(boards[1..], tenant, project);
    }
  }

  lemma EnsuringKeepsColumns(boards: seq<Board>, tenant: string, project: string, newIds: FreshIds, owner: string,
                             other: string)
    requires IndexOf(boards, OfProject(owner, other)) < |boards|
    ensures AllColumns(EnsureDefaultBoard(boards, tenant, project, newIds).0, owner, other)
            == AllColumns(boards, owner, other)
  {
    var after := EnsureDefaultBoard(boards, tenant, project, newIds).0;
    SameColumns(boards, after[..|boards|], owner, other);
    if |after| > |boards| {
      AllColumnsOfMore(boards, after[|boards|], owner, other);
    } else {
      assert after[..|boards|] == after;
    }
  }

  lemma {:induction false} SameColumns(before: seq<Board>, after: seq<Board>, tenant: string, project: string)
    requires BoardsGrow(before, after) && |before| == |after|
    ensures AllColumns(before, tenant, project) == AllColumns(after, tenant, project)
    decreases |before|
  {
    if before != [] {
      SameColumns(before[1..], after[1..], tenant, project);
    }
  }

  lemma {:induction false} AllColumnsOfMore(boards: seq<Board>, b: Board, tenant: string, project: string)
    requires !OfProject(tenant, project)(b)
    ensures AllColumns(boards + [b], tenant, project) == AllColumns(boards, tenant, project)
  {
    if boards != [] {
      assert (boards + [b])[1..] == boards[1..] + [b];
      AllColumnsOfMore(boards[1..], b, tenant, project);
    } else {
      assert boards + [b] == [b];
    }
  }

  // Along the run no move that names no column enters this one while it is full.
  ghost predicate NoneOverfills(db: Db, moves: seq<Move>, owner: string, project: string, c: Column)
    requires c.wipLimit.Some?
    decreases |moves|
  {
    moves == [] || ((moves[0].Names() || !Overfills(db, moves[0], owner, project, c))
                    && NoneOverfills(After(db, moves[0]), moves[1..], owner, project, c))
  }

  // Over any such run of moves of both kinds, every column with a positive limit holds at most
  // the larger of its limit and what it held at the start.
  lemma {:induction false} RunRespectsLimit(db: Db, moves: seq<Move>, owner: string, project: string, c: Column)
    requires ColumnIdsUnique(db.boards, owner, project) && c in AllColumns(db.boards, owner, project)
    requires c.wipLimit.Some? && c.wipLimit.value > 0
    requires NoneOverfills(db, moves, owner, project, c)
    ensures CountForColumn(Run(db, moves).tasks, owner, project, c)
            <= Max(c.wipLimit.value, CountForColumn(db.tasks, owner, project, c))
    decreases |moves|
  {
    if moves != [] {
      var m := moves[0];
      if m.Names() {
        NamingMoveNeverOverfills(db, m, owner, project, c);
      }
      MoveRespectsLimitIff(db, m, owner, project, c);
      StepKeepsColumns(db, m, owner, project);
      RunRespectsLimit(After(db, m), moves[1..], owner, project, c);
    }
  }
}
