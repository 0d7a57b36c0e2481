/** The project board: the task list it holds, the dialog state, the drag handler with its
    optimistic status change and revert, save (edit or create), delete, and the progress figures. */
module KanbanBoard {
  import opened JsText
  import opened Lists
  import opened Types
  import opened TaskModal

  // ---------------------------------------------------------------------------------------------
  // List updates
  // ---------------------------------------------------------------------------------------------

  /** `task => task.id === id ? { ...task, status } : task` */
  function SetStatusOf(id: string, status: Status): Task -> Task {
    (t: Task) => if t.id == id then t.(status := status) else t
  }

  /** The list with the status of the tasks carrying `id` set to `status`. */
  function WithStatus(tasks: seq<Task>, id: string, status: Status): seq<Task> {
    Map(tasks, SetStatusOf(id, status))
  }

  /** A status change touches only the status of the tasks with that id: same length, same order,
      every other field and every other task as before. */
  lemma {:induction false} WithStatusChangesOnlyStatus(tasks: seq<Task>, id: string, status: Status)
    ensures |WithStatus(tasks, id, status)| == |tasks|
    ensures forall i :: 0 <= i < |tasks| ==>
      var r := WithStatus(tasks, id, status);
      && (tasks[i].id == id ==> r[i] == tasks[i].(status := status))
      && (tasks[i].id != id ==> r[i] == tasks[i])
  {
    forall i | 0 <= i < |tasks|
      ensures var r := WithStatus(tasks, id, status);
        && (tasks[i].id == id ==> r[i] == tasks[i].(status := status))
        && (tasks[i].id != id ==> r[i] == tasks[i])
    {
      MapAt(tasks, SetStatusOf(id, status), i);
    }
  }

  /** Moving a task to `to` and back to `from` restores the list, when the tasks with that id were in
      `from` to begin with. */
  lemma RevertRestores(tasks: seq<Task>, id: string, from: Status, to: Status)
    requires forall t :: t in tasks && t.id == id ==> t.status == from
    ensures WithStatus(WithStatus(tasks, id, to), id, from) == tasks
  {
    forall t | t in tasks
      ensures SetStatusOf(id, from)(SetStatusOf(id, to)(t)) == t
    {
    }
    MapUndo(tasks, SetStatusOf(id, to), SetStatusOf(id, from));
  }

  /** `t => t.id === id ? row : t` */
  function ReplaceWith(id: string, row: Task): Task -> Task {
    (t: Task) => if t.id == id then row else t
  }

  /** `tasks.map(t => t.id === id ? row : t)`: the tasks with that id replaced by the saved row. */
  function ReplaceById(tasks: seq<Task>, id: string, row: Task): seq<Task> {
    Map(tasks, ReplaceWith(id, row))
  }

  /** Saving an edit replaces only the tasks with the matching id and keeps the length and order. */
  lemma {:induction false} ReplaceByIdChangesOnlyThatTask(tasks: seq<Task>, id: string, row: Task)
    ensures |ReplaceById(tasks, id, row)| == |tasks|
    ensures forall i :: 0 <= i < |tasks| ==>
      ReplaceById(tasks, id, row)[i] == (if tasks[i].id == id then row else tasks[i])
  {
    forall i | 0 <= i < |tasks|
      ensures ReplaceById(tasks, id, row)[i] == (if tasks[i].id == id then row else tasks[i])
    {
      MapAt(tasks, ReplaceWith(id, row), i);
    }
  }

  /** `t => t.id !== id` */
  function IdIsNot(id: string): Task -> bool {
    (t: Task) => t.id != id
  }

  /** `tasks.filter(t => t.id !== id)` */
  function RemoveById(tasks: seq<Task>, id: string): seq<Task> {
    Filter(tasks, IdIsNot(id))
  }

  /** Deleting removes exactly the tasks with that id, keeps the others in their order, and changes
      nothing when no task has that id. */
  lemma RemoveByIdRemovesOnlyThatTask(tasks: seq<Task>, id: string)
    ensures IsSubsequence(RemoveById(tasks, id), tasks)
    ensures forall t :: t in RemoveById(tasks, id) <==> t in tasks && t.id != id
    ensures (forall t :: t in tasks ==> t.id != id) ==> RemoveById(tasks, id) == tasks
  {
    FilterIsSubsequence(tasks, IdIsNot(id));
    if forall t :: t in tasks ==> t.id != id {
      FilterKeepsAll(tasks, IdIsNot(id));
    }
  }

  // ---------------------------------------------------------------------------------------------
  // Progress figures
  // ---------------------------------------------------------------------------------------------

  /** `t.story_points || 0` */
  function PointsOrZero(t: Task): int {
    if t.story_points.Some? then t.story_points.value else 0
  }

  function IsDone(t: Task): bool {
    t.status == Done
  }

  /** The figures of the stats bar. */
  datatype Stats = Stats(totalTasks: nat, completedTasks: nat, totalPoints: int, completedPoints: int)

  function StatsOf(tasks: seq<Task>): (s: Stats)
    ensures s.totalTasks == |tasks|
    ensures s.completedTasks <= s.totalTasks
  {
    Stats(|tasks|, Count(tasks, IsDone), Sum(tasks, PointsOrZero), Sum(Filter(tasks, IsDone), PointsOrZero))
  }

  /** Story points as the forms submit them: null or not below 0. */
  predicate NonNegativePoints(t: Task) {
    t.story_points.Some? ==> t.story_points.value >= 0
  }

  /** With no negative story points, the completed points lie between 0 and the total. */
  lemma CompletedPointsBounded(tasks: seq<Task>)
    requires forall t :: t in tasks ==> NonNegativePoints(t)
    ensures 0 <= StatsOf(tasks).completedPoints <= StatsOf(tasks).totalPoints
  {
    SumOfFilterBounded(tasks, IsDone, PointsOrZero);
  }

  /** The velocity figure, shown only when there are story points at all. */
  function Velocity(s: Stats): (r: Option<int>)
    ensures r.Some? <==> s.totalPoints > 0
    ensures r.Some? ==> r.value == RoundPercent(s.completedPoints, s.totalPoints)
    ensures r.Some? && 0 <= s.completedPoints <= s.totalPoints ==> 0 <= r.value <= 100
    ensures r.Some? && s.completedPoints == s.totalPoints ==> r.value == 100
  {
    if s.totalPoints > 0 then Some(RoundPercent(s.completedPoints, s.totalPoints)) else None
  }

  /** Moving a task between columns keeps the number of tasks and the total of story points. */
  lemma DragKeepsTotals(tasks: seq<Task>, id: string, status: Status)
    ensures StatsOf(WithStatus(tasks, id, status)).totalTasks == StatsOf(tasks).totalTasks
    ensures StatsOf(WithStatus(tasks, id, status)).totalPoints == StatsOf(tasks).totalPoints
  {
    SumOfMap(tasks, SetStatusOf(id, status), PointsOrZero);
  }

  // ---------------------------------------------------------------------------------------------
  // Writes to the store
  // ---------------------------------------------------------------------------------------------

  /** The `tasks` update a drag requests: the status of the dragged task, stamped with the time of
      the write (`new Date().toISOString()`, a parameter here). */
  datatype StatusWrite = StatusWrite(id: string, status: Status, updated_at: string)

  /** The task columns a save writes. A column missing from the written object is `None`: an
      update keeps the stored value, an insert leaves the column default. */
  datatype TaskColumns = TaskColumns(
    title: string, description: Option<string>, story_points: Option<int>,
    status: Option<Status>, google_doc_link: Option<Option<string>>, updated_at: Option<string>)

  datatype TaskWrite =
    | UpdateTask(id: string, columns: TaskColumns)
    | InsertTask(project_id: string, columns: TaskColumns)

  /** `taskData.status || defaultStatus` */
  function StatusOr(status: Option<Status>, fallback: Status): (r: Status)
    ensures status.Some? ==> r == status.value
    ensures status.None? ==> r == fallback
  {
    if status.Some? then status.value else fallback
  }

  /** The update object the edit branch writes as the code stands: the link is not among its keys,
      and `updated_at` is the time `now` of the write. */
  function UpdateColumnsAsWritten(data: TaskData, now: string): TaskColumns {
    TaskColumns(data.title, data.description, data.story_points, data.status, None, Some(now))
  }

  /** The insert object the create branch writes as the code stands: the link is not among its keys;
      the status falls back to the column the dialog was opened from only when the data has none. */
  function InsertColumnsAsWritten(data: TaskData, defaultStatus: Status): (c: TaskColumns)
    ensures c.status == Some(if data.status.Some? then data.status.value else defaultStatus)
  {
    TaskColumns(data.title, data.description, data.story_points, Some(StatusOr(data.status, defaultStatus)), None, None)
  }

  /** The update object with the link the dialog submits, stamped with the time `now` of the write. */
  function UpdateColumns(data: TaskData, now: string): TaskColumns {
    TaskColumns(data.title, data.description, data.story_points, data.status, Some(data.google_doc_link), Some(now))
  }

  /** The insert object with the link the dialog submits; the status falls back to the column the
      dialog was opened from only when the data has none. */
  function InsertColumns(data: TaskData, defaultStatus: Status): (c: TaskColumns)
    ensures c.status == Some(if data.status.Some? then data.status.value else defaultStatus)
  {
    TaskColumns(data.title, data.description, data.story_points, Some(StatusOr(data.status, defaultStatus)), Some(data.google_doc_link), None)
  }

  /** The row the store holds after writing `columns` over `row`. */
  function Stored(row: Task, columns: TaskColumns): Task {
    row.(
      title := columns.title, description := columns.description, story_points := columns.story_points,
      status := StatusOr(columns.status, row.status),
      google_doc_link := if columns.google_doc_link.Some? then columns.google_doc_link.value else row.google_doc_link,
      updated_at := if columns.updated_at.Some? then columns.updated_at.value else row.updated_at)
  }

  /** A new row before an insert writes its columns: the id and creation time the store assigns and
      null in every nullable column. */
  function BlankRow(id: string, projectId: string, createdAt: string): Task {
    Task(id, projectId, "", None, Backlog, None, None, createdAt, createdAt)
  }

  /** Saving an edit stores every field the dialog submits, the link included, keeps the id, the
      project and the creation time, and stamps the row with the time of the write. */
  lemma EditStoresSubmittedFields(row: Task, data: TaskData, now: string)
    ensures var r := Stored(row, UpdateColumns(data, now));
      && r.id == row.id && r.project_id == row.project_id
      && r.created_at == row.created_at && r.updated_at == now
      && r.title == data.title && r.description == data.description
      && r.story_points == data.story_points && r.google_doc_link == data.google_doc_link
      && r.status == StatusOr(data.status, row.status)
  {
  }

  /** Creating a task stores every field the dialog submits, the link included. */
  lemma CreateStoresSubmittedFields(id: string, projectId: string, createdAt: string, data: TaskData, defaultStatus: Status)
    ensures var r := Stored(BlankRow(id, projectId, createdAt), InsertColumns(data, defaultStatus));
      && r.id == id && r.project_id == projectId
      && r.title == data.title && r.description == data.description
      && r.story_points == data.story_points && r.google_doc_link == data.google_doc_link
      && r.status == StatusOr(data.status, defaultStatus)
  {
  }

  /** Opening a task, leaving the dialog untouched and saving at time `now` stores the task
      unchanged apart from its `updated_at`, which becomes `now`. */
  lemma UntouchedEditKeepsTask(task: Task, now: string)
    requires task.title != [] && Trimmed(task.title)
    requires StableText(task.description) && StableText(task.google_doc_link)
    ensures Payload(FormOf(Some(task))).Some?
    ensures Stored(task, UpdateColumns(Payload(FormOf(Some(task))).value, now)) == task.(updated_at := now)
  {
    LoadSubmitRoundTrip(task);
  }

  /** As the code stands, a link typed into the dialog of an existing task without a link is
      lost: the stored row still has none. */
  lemma EditAsWrittenLosesLink()
    ensures var task := Task("t1", "p1", "Spec", None, Backlog, None, None, "c", "u");
      var form := Form("Spec", "", "", "https://docs", Backlog);
      && Payload(form).Some?
      && Payload(form).value.google_doc_link == Some("https://docs")
      && Stored(task, UpdateColumnsAsWritten(Payload(form).value, "n")).google_doc_link == None
  {
    var form := Form("Spec", "", "", "https://docs", Backlog);
    LinkFormSubmits(form);
  }

  /** As the code stands, a link entered when creating a task is lost: the new row has none. */
  lemma CreateAsWrittenLosesLink()
    ensures var form := Form("Spec", "", "", "https://docs", Backlog);
      && Payload(form).Some?
      && Payload(form).value.google_doc_link == Some("https://docs")
      && Stored(BlankRow("t1", "p1", "c"), InsertColumnsAsWritten(Payload(form).value, Backlog)).google_doc_link == None
  {
    var form := Form("Spec", "", "", "https://docs", Backlog);
    LinkFormSubmits(form);
  }

  /** The dialog filled with title "Spec" and link "https://docs" submits that link. */
  lemma LinkFormSubmits(form: Form)
    requires form == Form("Spec", "", "", "https://docs", Backlog)
    ensures Payload(form).Some? && Payload(form).value.google_doc_link == Some("https://docs")
  {
    assert !IsSpace('S') && !IsSpace('h') && !IsSpace('s');
    assert !Blank(form.title) by {
      BlankIffAllSpace(form.title);
      assert form.title[0] == 'S';
    }
    assert Trimmed(form.googleDocLink);
    TrimOfTrimmed(form.googleDocLink);
  }

  // ---------------------------------------------------------------------------------------------
  // The board component
  // ---------------------------------------------------------------------------------------------

  datatype DraggableLocation = DraggableLocation(droppableId: string, index: int)

  datatype DropResult = DropResult(draggableId: string, source: DraggableLocation, destination: Option<DraggableLocation>)

  /** The board's droppables are its three columns, whose ids are status names; the handler reads
      the ids back as statuses. */
  predicate FromColumns(result: DropResult) {
    && ParseStatus(result.source.droppableId).Some?
    && (result.destination.Some? ==> ParseStatus(result.destination.value.droppableId).Some?)
  }

  /** A drop outside every column, or back onto the position it started from. */
  predicate MovesNothing(result: DropResult) {
    || result.destination.None?
    || (result.destination.value.droppableId == result.source.droppableId
        && result.destination.value.index == result.source.index)
  }

  class Board {
    var tasks: seq<Task>
    var isModalOpen: bool
    var selectedTask: Option<Task>
    var defaultStatus: Status
    const projectId: string

    constructor (projectId: string, initialTasks: seq<Task>)
      ensures tasks == initialTasks && this.projectId == projectId
      ensures !isModalOpen && selectedTask == None && defaultStatus == Backlog
    {
      this.projectId := projectId;
      tasks := initialTasks;
      isModalOpen := false;
      selectedTask := None;
      defaultStatus := Backlog;
    }

    /** `handleTaskClick`: the dialog opens on that task. */
    method HandleTaskClick(task: Task)
      modifies this
      ensures selectedTask == Some(task) && isModalOpen
      ensures tasks == old(tasks) && defaultStatus == old(defaultStatus)
    {
      selectedTask := Some(task);
      isModalOpen := true;
    }

    /** `handleAddTask`: the dialog opens empty, remembering the column it was opened from. */
    method HandleAddTask(status: Status)
      modifies this
      ensures selectedTask == None && defaultStatus == status && isModalOpen
      ensures tasks == old(tasks)
    {
      selectedTask := None;
      defaultStatus := status;
      isModalOpen := true;
    }

    /** `handleCloseModal` */
    method HandleCloseModal()
      modifies this
      ensures !isModalOpen && selectedTask == None
      ensures tasks == old(tasks) && defaultStatus == old(defaultStatus)
    {
      isModalOpen := false;
      selectedTask := None;
    }

    /** `handleDragEnd`: a drop that moves nothing changes nothing and writes nothing. Otherwise the
        dragged task takes the destination status at once, the status is written with the time `now`,
        and when the write fails the task is put back into the source column; when the task was in
        that column, a failed drag leaves the list as it was. */
    method HandleDragEnd(result: DropResult, now: string, writeSucceeded: bool) returns (write: Option<StatusWrite>)
      requires FromColumns(result)
      modifies this
      ensures MovesNothing(result) ==> write == None && tasks == old(tasks)
      ensures !MovesNothing(result) ==>
        var id := result.draggableId;
        var from := ParseStatus(result.source.droppableId).value;
        var to := ParseStatus(result.destination.value.droppableId).value;
        && write == Some(StatusWrite(id, to, now))
        && tasks == (if writeSucceeded then WithStatus(old(tasks), id, to)
                     else WithStatus(WithStatus(old(tasks), id, to), id, from))
        && (!writeSucceeded && (forall t :: t in old(tasks) && t.id == id ==> t.status == from)
            ==> tasks == old(tasks))
      ensures isModalOpen == old(isModalOpen) && selectedTask == old(selectedTask)
      ensures defaultStatus == old(defaultStatus)
    {
      if MovesNothing(result) {
        return None;
      }
      var id := result.draggableId;
      var to := ParseStatus(result.destination.value.droppableId).value;
      tasks := WithStatus(tasks, id, to);
      write := Some(StatusWrite(id, to, now));
      if !writeSucceeded {
        var from := ParseStatus(result.source.droppableId).value;
        tasks := WithStatus(tasks, id, from);
        if forall t :: t in old(tasks) && t.id == id ==> t.status == from {
          RevertRestores(old(tasks), id, from, to);
        }
      }
    }

    /** `handleSaveTask`: with a task selected its row is updated, stamped with the time `now`, and,
        on success, replaced in the list; otherwise a row is inserted for this project and, on
        success, appended. A failed write
        leaves the list as it was and is reported to the dialog. */
    method HandleSaveTask(data: TaskData, now: string, response: Response<Task>) returns (write: TaskWrite, saved: bool)
      modifies this
      ensures old(selectedTask).Some? ==> write == UpdateTask(old(selectedTask).value.id, UpdateColumnsAsWritten(data, now))
      ensures old(selectedTask).None? ==> write == InsertTask(projectId, InsertColumnsAsWritten(data, old(defaultStatus)))
      ensures saved <==> response.Data?
      ensures response.Data? && old(selectedTask).Some? ==>
        tasks == ReplaceById(old(tasks), old(selectedTask).value.id, response.row)
      ensures response.Data? && old(selectedTask).None? ==> tasks == old(tasks) + [response.row]
      ensures response.Error? ==> tasks == old(tasks)
      ensures isModalOpen == old(isModalOpen) && selectedTask == old(selectedTask)
      ensures defaultStatus == old(defaultStatus)
    {
      if selectedTask.Some? {
        var id := selectedTask.value.id;
        write := UpdateTask(id, UpdateColumnsAsWritten(data, now));
        if response.Data? {
          tasks := ReplaceById(tasks, id, response.row);
        }
      } else {
        write := InsertTask(projectId, InsertColumnsAsWritten(data, defaultStatus));
        if response.Data? {
          tasks := tasks + [response.row];
        }
      }
      saved := response.Data?;
    }

    /** `handleDeleteTask`: nothing without a selected task; otherwise its rows are deleted and, when
        the task row's delete succeeds, the task is filtered out of the list. */
    method HandleDeleteTask(deleteSucceeded: bool) returns (deletedId: Option<string>, failed: bool)
      modifies this
      ensures old(selectedTask).None? ==> deletedId == None && !failed && tasks == old(tasks)
      ensures old(selectedTask).Some? ==>
        && deletedId == Some(old(selectedTask).value.id)
        && failed == !deleteSucceeded
        && tasks == (if deleteSucceeded then RemoveById(old(tasks), old(selectedTask).value.id) else old(tasks))
      ensures isModalOpen == old(isModalOpen) && selectedTask == old(selectedTask)
      ensures defaultStatus == old(defaultStatus)
    {
      if selectedTask.None? {
        return None, false;
      }
      var id := selectedTask.value.id;
      deletedId := Some(id);
      if deleteSucceeded {
        tasks := RemoveById(tasks, id);
      }
      failed := !deleteSucceeded;
    }

    /** The stats bar of the current list. */
    function Progress(): (s: Stats)
      reads this
      ensures s.totalTasks == |tasks| && s.completedTasks <= s.totalTasks
    {
      StatsOf(tasks)
    }
  }
}
