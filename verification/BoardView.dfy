// The project board (src/agile/agile.service.ts, getProjectBoard): the visible tasks projected
// into columns, with metrics per column and for the whole board.
module BoardView {
  import opened Seqs
  import opened Tasks

  // A fetched card: a task under its id.
  datatype CardTask = CardTask(id: string, task: Task)

  // taskBelongsToColumn
  predicate BelongsTo(t: CardTask, column: Column, columns: seq<Column>) {
    if Given(t.task.boardColumnId) then t.task.boardColumnId == Some(column.id)
    else
      var statusColumn := FindFirst(columns, HasStatus(t.task.status));
      statusColumn.Some? && statusColumn.value.id == column.id
  }

  function InColumn(column: Column, columns: seq<Column>): CardTask -> bool {
    (t: CardTask) => BelongsTo(t, column, columns)
  }

  function ColumnTasks(tasks: seq<CardTask>, column: Column, columns: seq<Column>): seq<CardTask> {
    Filter(tasks, InColumn(column, columns))
  }

  // A task the board has a place for: its column is on the board, or it names no column and
  // some column carries its status.
  predicate Placed(t: CardTask, columns: seq<Column>) {
    if Given(t.task.boardColumnId) then exists c :: c in columns && t.task.boardColumnId == Some(c.id)
    else exists c :: c in columns && c.status == Some(t.task.status)
  }

  function IsPlaced(columns: seq<Column>): CardTask -> bool {
    (t: CardTask) => Placed(t, columns)
  }

  function IsUnplaced(columns: seq<Column>): CardTask -> bool {
    (t: CardTask) => !Placed(t, columns)
  }

  // Column ids are primary keys.
  ghost predicate DistinctColumns(columns: seq<Column>) {
    NoDuplicates(Map(columns, ColumnId()))
  }

  // ---------- Each placed task lies in one column ----------

  lemma NoTaskInTwoColumns(columns: seq<Column>, t: CardTask, i: nat, j: nat)
    requires DistinctColumns(columns) && i < |columns| && j < |columns|
    ensures BelongsTo(t, columns[i], columns) && BelongsTo(t, columns[j], columns) ==> i == j
  {
    assert columns[i].id == columns[j].id ==> Map(columns, ColumnId())[i] == Map(columns, ColumnId())[j];
  }

  lemma PlacedIffInSomeColumn(columns: seq<Column>, t: CardTask)
    ensures Placed(t, columns) <==> exists c :: c in columns && BelongsTo(t, c, columns)
  {
    if Given(t.task.boardColumnId) {
      if c :| c in columns && t.task.boardColumnId == Some(c.id) {
        assert BelongsTo(t, c, columns);
      }
    } else {
      var statusColumn := FindFirst(columns, HasStatus(t.task.status));
      if c :| c in columns && c.status == Some(t.task.status) {
        assert HasStatus(t.task.status)(c);
        assert BelongsTo(t, statusColumn.value, columns);
      }
      if statusColumn.Some? {
        assert HasStatus(t.task.status)(statusColumn.value);
      }
    }
  }

  // The columns' lists are pairwise disjoint and hold exactly the placed tasks.
  lemma ColumnsPartitionPlacedTasks(tasks: seq<CardTask>, columns: seq<Column>, t: CardTask)
    requires DistinctColumns(columns)
    ensures (exists i :: 0 <= i < |columns| && t in ColumnTasks(tasks, columns[i], columns))
       <==> t in tasks && Placed(t, columns)
    ensures forall i, j :: 0 <= i < j < |columns| && t in ColumnTasks(tasks, columns[i], columns) ==>
              t !in ColumnTasks(tasks, columns[j], columns)
  {
    PlacedIffInSomeColumn(columns, t);
    forall i | 0 <= i < |columns|
      ensures t in ColumnTasks(tasks, columns[i], columns) <==> t in tasks && BelongsTo(t, columns[i], columns)
    {
      FilterMember(tasks, InColumn(columns[i], columns), t);
    }
    forall i, j | 0 <= i < j < |columns| && t in ColumnTasks(tasks, columns[i], columns)
      ensures t !in ColumnTasks(tasks, columns[j], columns)
    {
      NoTaskInTwoColumns(columns, t, i, j);
    }
    if t in tasks && Placed(t, columns) {
      var c :| c in columns && BelongsTo(t, c, columns);
      var i :| 0 <= i < |columns| && columns[i] == c;
      assert t in ColumnTasks(tasks, columns[i], columns);
    }
  }

  // The fetch of the board: the tasks of the project that are neither archived nor deleted.
  function OnBoard(tenant: string, project: string): CardTask -> bool {
    (t: CardTask) => t.task.tenantId == tenant && t.task.projectId == project && !t.task.hidden
  }

  function Fetched(tasks: seq<CardTask>, tenant: string, project: string): seq<CardTask> {
    Filter(tasks, OnBoard(tenant, project))
  }

  // So the board shows exactly the visible tasks of its project that have a place, each in one
  // column.
  lemma BoardShowsVisibleTasks(tasks: seq<CardTask>, tenant: string, project: string, columns: seq<Column>, t: CardTask)
    requires DistinctColumns(columns)
    ensures var cards := Fetched(tasks, tenant, project);
            (exists i :: 0 <= i < |columns| && t in ColumnTasks(cards, columns[i], columns)) <==>
              t in tasks && t.task.tenantId == tenant && t.task.projectId == project && !t.task.hidden
              && Placed(t, columns)
    ensures var cards := Fetched(tasks, tenant, project);
            forall i, j :: 0 <= i < j < |columns| && t in ColumnTasks(cards, columns[i], columns) ==>
                t !in ColumnTasks(cards, columns[j], columns)
  {
    ColumnsPartitionPlacedTasks(Fetched(tasks, tenant, project), columns, t);
    FilterMember(tasks, OnBoard(tenant, project), t);
  }

  // ---------- Totals ----------

  // The sum of a quantity over the lists of the columns in todo.
  function ColumnsTotal(tasks: seq<CardTask>, todo: seq<Column>, columns: seq<Column>, f: CardTask -> int): int {
    if todo == [] then 0
    else Sum(ColumnTasks(tasks, todo[0], columns), f) + ColumnsTotal(tasks, todo[1..], columns, f)
  }

  lemma {:induction false} OneMoreTask(t: CardTask, tasks: seq<CardTask>, todo: seq<Column>, columns: seq<Column>,
                                       f: CardTask -> int)
    requires NoDuplicates(Map(todo, ColumnId()))
    ensures ColumnsTotal([t] + tasks, todo, columns, f)
         == ColumnsTotal(tasks, todo, columns, f) + if exists c :: c in todo && BelongsTo(t, c, columns) then f(t)
           else 0
  {
    if todo != [] {
      var c, rest := todo[0], todo[1..];
      forall i, j | 0 <= i < j < |rest|
        ensures Map(rest, ColumnId())[i] != Map(rest, ColumnId())[j]
      {
        assert Map(todo, ColumnId())[i + 1] != Map(todo, ColumnId())[j + 1];
      }
      OneMoreTask(t, tasks, rest, columns, f);
      FilterCons(t, tasks, InColumn(c, columns));
      SumConcat([t], ColumnTasks(tasks, c, columns), f);
      forall i | 0 <= i < |rest|
        ensures !(BelongsTo(t, c, columns) && BelongsTo(t, rest[i], columns))
      {
        assert Map(todo, ColumnId())[0] != Map(todo, ColumnId())[i + 1];
      }
      assert todo == [c] + rest;
    }
  }

  lemma {:induction false} NothingInNoTasks(todo: seq<Column>, columns: seq<Column>, f: CardTask -> int)
    ensures ColumnsTotal([], todo, columns, f) == 0
  {
    if todo != [] {
      NothingInNoTasks(todo[1..], columns, f);
    }
  }

  // Summed over the columns, any quantity comes to its sum over the placed tasks.
  lemma {:induction false} ColumnsAddUp(tasks: seq<CardTask>, columns: seq<Column>, f: CardTask -> int)
    requires DistinctColumns(columns)
    ensures ColumnsTotal(tasks, columns, columns, f) == Sum(Filter(tasks, IsPlaced(columns)), f)
  {
    if tasks == [] {
      NothingInNoTasks(columns, columns, f);
    } else {
      var t, rest := tasks[0], tasks[1..];
      assert tasks == [t] + rest;
      OneMoreTask(t, rest, columns, columns, f);
      ColumnsAddUp(rest, columns, f);
      PlacedIffInSomeColumn(columns, t);
      FilterCons(t, rest, IsPlaced(columns));
      SumConcat([t], Filter(rest, IsPlaced(columns)), f);
    }
  }

  // ---------- Metrics ----------

  datatype Metrics = Metrics(
    taskCount: int, completedCount: int, storyPoints: int, completedStoryPoints: int, estimateMins: int,
    actualMins: int,
    blockedCount: int, overdueCount: int, dueTodayCount: int, highPriorityCount: int, unassignedCount: int)

  function Points(): CardTask -> int { (t: CardTask) => t.task.storyPoints.GetOr(0) }

  function Estimate(): CardTask -> int { (t: CardTask) => t.task.estimateMins.GetOr(0) }

  function Actual(): CardTask -> int { (t: CardTask) => t.task.actualMins.GetOr(0) }

  function IsDone(): CardTask -> bool { (t: CardTask) => t.task.status == DONE }

  function IsBlocked(): CardTask -> bool { (t: CardTask) => t.task.card.blocked }

  function IsOverdue(): CardTask -> bool { (t: CardTask) => t.task.card.overdue }

  function IsDueToday(): CardTask -> bool { (t: CardTask) => t.task.card.dueToday }

  function IsHighPriority(): CardTask -> bool { (t: CardTask) => t.task.card.highPriority }

  function IsUnassigned(): CardTask -> bool { (t: CardTask) => !t.task.card.hasAssignee }

  // The additive part of resolveColumnMetrics and of resolveBoardSummary.
  function MetricsOf(tasks: seq<CardTask>): Metrics {
    Metrics(|tasks|, |Filter(tasks, IsDone())|, Sum(tasks, Points()), Sum(Filter(tasks, IsDone()), Points()),
            Sum(tasks, Estimate()), Sum(tasks, Actual()),
            |Filter(tasks, IsBlocked())|, |Filter(tasks, IsOverdue())|, |Filter(tasks, IsDueToday())|,
            |Filter(tasks, IsHighPriority())|, |Filter(tasks, IsUnassigned())|)
  }

  // The fields of a metrics record, and the reading of each.
  datatype Field =
    | TaskCount | CompletedCount | StoryPoints | CompletedStoryPoints | EstimateMins | ActualMins
    | BlockedCount | OverdueCount | DueTodayCount | HighPriorityCount | UnassignedCount

  function Read(m: Metrics, field: Field): int {
    match field
    case TaskCount => m.taskCount
    case CompletedCount => m.completedCount
    case StoryPoints => m.storyPoints
    case CompletedStoryPoints => m.completedStoryPoints
    case EstimateMins => m.estimateMins
    case ActualMins => m.actualMins
    case BlockedCount => m.blockedCount
    case OverdueCount => m.overdueCount
    case DueTodayCount => m.dueTodayCount
    case HighPriorityCount => m.highPriorityCount
    case UnassignedCount => m.unassignedCount
  }

  function OneIf(p: CardTask -> bool): CardTask -> int {
    (t: CardTask) => if p(t) then 1 else 0
  }

  // What one task contributes to a field.
  function Quantity(field: Field): CardTask -> int {
    match field
    case TaskCount => (t: CardTask) => 1
    case CompletedCount => OneIf(IsDone())
    case StoryPoints => Points()
    case CompletedStoryPoints => (t: CardTask) => if t.task.status == DONE then t.task.storyPoints.GetOr(0) else 0
    case EstimateMins => Estimate()
    case ActualMins => Actual()
    case BlockedCount => OneIf(IsBlocked())
    case OverdueCount => OneIf(IsOverdue())
    case DueTodayCount => OneIf(IsDueToday())
    case HighPriorityCount => OneIf(IsHighPriority())
    case UnassignedCount => OneIf(IsUnassigned())
  }

  lemma {:induction false} CountIsSum(tasks: seq<CardTask>, p: CardTask -> bool)
    ensures |Filter(tasks, p)| == Sum(tasks, OneIf(p))
  {
    if tasks != [] {
      CountIsSum(tasks[1..], p);
    }
  }

  lemma {:induction false} LengthIsSum(tasks: seq<CardTask>)
    ensures |tasks| == Sum(tasks, Quantity(TaskCount))
  {
    if tasks != [] {
      LengthIsSum(tasks[1..]);
    }
  }

  lemma {:induction false} DonePointsIsSum(tasks: seq<CardTask>)
    ensures Sum(Filter(tasks, IsDone()), Points()) == Sum(tasks, Quantity(CompletedStoryPoints))
  {
    if tasks != [] {
      DonePointsIsSum(tasks[1..]);
      assert ([tasks[0]] + Filter(tasks[1..], IsDone()))[1..] == Filter(tasks[1..], IsDone());
    }
  }

  // Every field of the metrics is a sum over the tasks.
  lemma FieldIsSum(tasks: seq<CardTask>, field: Field)
    ensures Read(MetricsOf(tasks), field) == Sum(tasks, Quantity(field))
  {
    match field
    case TaskCount => LengthIsSum(tasks);
    case CompletedCount => CountIsSum(tasks, IsDone());
    case StoryPoints =>
    case CompletedStoryPoints => DonePointsIsSum(tasks);
    case EstimateMins =>
    case ActualMins =>
    case BlockedCount => CountIsSum(tasks, IsBlocked());
    case OverdueCount => CountIsSum(tasks, IsOverdue());
    case DueTodayCount => CountIsSum(tasks, IsDueToday());
    case HighPriorityCount => CountIsSum(tasks, IsHighPriority());
    case UnassignedCount => CountIsSum(tasks, IsUnassigned());
  }

  // One field of the column metrics, added up over the columns in todo.
  function FieldTotal(tasks: seq<CardTask>, todo: seq<Column>, columns: seq<Column>, field: Field): int {
    if todo == [] then 0
    else Read(MetricsOf(ColumnTasks(tasks, todo[0], columns)), field) + FieldTotal(tasks, todo[1..], columns, field)
  }

  lemma {:induction false} FieldTotalIsColumnsTotal(tasks: seq<CardTask>, todo: seq<Column>, columns: seq<Column>,
                                                    field: Field)
    ensures FieldTotal(tasks, todo, columns, field) == ColumnsTotal(tasks, todo, columns, Quantity(field))
  {
    if todo != [] {
      FieldIsSum(ColumnTasks(tasks, todo[0], columns), field);
      FieldTotalIsColumnsTotal(tasks, todo[1..], columns, field);
    }
  }

  // Field by field, the column metrics add up to the metrics of the placed tasks: every count,
  // every point and every minute of a placed task is shown in exactly one column.
  lemma ColumnMetricsAddUp(tasks: seq<CardTask>, columns: seq<Column>, field: Field)
    requires DistinctColumns(columns)
    ensures FieldTotal(tasks, columns, columns, field) == Read(MetricsOf(Filter(tasks, IsPlaced(columns))), field)
  {
    FieldTotalIsColumnsTotal(tasks, columns, columns, field);
    ColumnsAddUp(tasks, columns, Quantity(field));
    FieldIsSum(Filter(tasks, IsPlaced(columns)), field);
  }

  // What the columns leave out is what the unplaced tasks hold; so, for quantities that are not
  // negative, the columns together never exceed the summary.
  lemma ColumnsNeverExceedSummary(tasks: seq<CardTask>, columns: seq<Column>, field: Field)
    requires DistinctColumns(columns)
    ensures FieldTotal(tasks, columns, columns, field) + Read(MetricsOf(Filter(tasks, IsUnplaced(columns))), field)
         == Read(MetricsOf(tasks), field)
    ensures (forall t :: t in tasks ==> Quantity(field)(t) >= 0) ==>
              FieldTotal(tasks, columns, columns, field) <= Read(MetricsOf(tasks), field)
  {
    var unplaced := Filter(tasks, IsUnplaced(columns));
    ColumnMetricsAddUp(tasks, columns, field);
    FieldIsSum(Filter(tasks, IsPlaced(columns)), field);
    FieldIsSum(unplaced, field);
    FieldIsSum(tasks, field);
    SumSplit(tasks, IsPlaced(columns), IsUnplaced(columns), Quantity(field));
    if forall t :: t in tasks ==> Quantity(field)(t) >= 0 {
      forall t | t in unplaced
        ensures Quantity(field)(t) >= 0
      {
        FilterMember(tasks, IsUnplaced(columns), t);
      }
      SumNonNegative(unplaced, Quantity(field));
    }
  }

  // ---------- What the metrics say ----------

  // What one card adds to a field, read off its task.
  function Adds(t: Task, field: Field): int {
    match field
    case TaskCount => 1
    case CompletedCount => if t.status == DONE then 1 else 0
    case StoryPoints => if t.storyPoints.Some? then t.storyPoints.value else 0
    case CompletedStoryPoints => if t.status == DONE && t.storyPoints.Some? then t.storyPoints.value else 0
    case EstimateMins => if t.estimateMins.Some? then t.estimateMins.value else 0
    case ActualMins => if t.actualMins.Some? then t.actualMins.value else 0
    case BlockedCount => if t.card.blocked then 1 else 0
    case OverdueCount => if t.card.overdue then 1 else 0
    case DueTodayCount => if t.card.dueToday then 1 else 0
    case HighPriorityCount => if t.card.highPriority then 1 else 0
    case UnassignedCount => if t.card.hasAssignee then 0 else 1
  }

  function AddsAll(tasks: seq<CardTask>, field: Field): int {
    if tasks == [] then 0 else Adds(tasks[0].task, field) + AddsAll(tasks[1..], field)
  }

  // Each field of the metrics is what its cards add to it.
  lemma MetricsAddCards(tasks: seq<CardTask>, field: Field)
    ensures Read(MetricsOf(tasks), field) == AddsAll(tasks, field)
  {
    FieldIsSum(tasks, field);
    SumAdds(tasks, field);
  }

  lemma {:induction false} SumAdds(tasks: seq<CardTask>, field: Field)
    ensures Sum(tasks, Quantity(field)) == AddsAll(tasks, field)
  {
    if tasks != [] {
      SumAdds(tasks[1..], field);
      assert Quantity(field)(tasks[0]) == Adds(tasks[0].task, field);
    }
  }
}
