// The task, column and board rows the agile services work on.
module Tasks {
  import opened Seqs

  datatype Status = BACKLOG | TODO | IN_PROGRESS | REVIEW | TESTING | DONE | CANCELLED

  // The flags of a board card, each derived from rows outside this model.
  datatype Card = Card(blocked: bool, blocking: bool, overdue: bool, dueToday: bool, highPriority: bool,
                       hasAssignee: bool)

  // hidden: the task is archived or deleted.
  datatype Task = Task(
    tenantId: string, projectId: string, sprintId: Option<string>, boardColumnId: Option<string>, status: Status,
    sortOrder: int, completedAt: Option<int>, hidden: bool,
    storyPoints: Option<int>, estimateMins: Option<int>, actualMins: Option<int>, card: Card)

  datatype Column = Column(id: string, status: Option<Status>, wipLimit: Option<int>)

  datatype Board = Board(id: string, tenantId: string, projectId: string, isDefault: bool, columns: seq<Column>)

  function HasStatus(status: Status): Column -> bool {
    (c: Column) => c.status == Some(status)
  }

  function ColumnId(): Column -> string {
    (c: Column) => c.id
  }
}
