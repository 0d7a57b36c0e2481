/** One column of the project board: the tasks of its status, the props of their cards, the badge,
    the empty placeholder and drop hint, and the droppable id the board reads back. */
module KanbanColumn {
  import opened JsText
  import opened Lists
  import opened Types
  import KanbanBoard

  /** `task => task.status === status` */
  function StatusIs(status: Status): Task -> bool {
    (t: Task) => t.status == status
  }

  /** `tasks.filter(task => task.status === status)`: exactly the tasks of that status, in board order. */
  function ColumnTasks(tasks: seq<Task>, status: Status): (r: seq<Task>)
    ensures IsSubsequence(r, tasks)
    ensures forall t :: t in r <==> t in tasks && t.status == status
  {
    FilterIsSubsequence(tasks, StatusIs(status));
    Filter(tasks, StatusIs(status))
  }

  /** The backlog, in-progress and done columns together list every task exactly once. */
  lemma ColumnsPartitionBoard(tasks: seq<Task>)
    ensures multiset(ColumnTasks(tasks, Backlog)) + multiset(ColumnTasks(tasks, InProgress))
      + multiset(ColumnTasks(tasks, Done)) == multiset(tasks)
    ensures |ColumnTasks(tasks, Backlog)| + |ColumnTasks(tasks, InProgress)| + |ColumnTasks(tasks, Done)| == |tasks|
  {
    FilterPartition3(tasks, StatusIs(Backlog), StatusIs(InProgress), StatusIs(Done));
    assert |multiset(ColumnTasks(tasks, Backlog)) + multiset(ColumnTasks(tasks, InProgress))
      + multiset(ColumnTasks(tasks, Done))| == |multiset(tasks)|;
  }

  /** `taskDocsMap[task.id] || false` */
  function HasDocument(docs: map<string, bool>, id: string): (r: bool)
    ensures r <==> id in docs && docs[id]
  {
    if id in docs then docs[id] else false
  }

  /** `taskLinksMap[task.id] || 0` */
  function LinksCount(links: map<string, int>, id: string): (r: int)
    ensures id !in links ==> r == 0
    ensures id in links ==> r == links[id]
  {
    if id in links && links[id] != 0 then links[id] else 0
  }

  /** The props a task card receives. */
  datatype CardProps = CardProps(task: Task, index: nat, hasDocument: bool, linksCount: int)

  /** What a column shows. `addStatus` is the status its add buttons request. */
  datatype ColumnView = ColumnView(
    cards: seq<CardProps>, badge: nat, showEmptyPlaceholder: bool, showDropHint: bool,
    droppableId: string, addStatus: Status)

  function View(status: Status, tasks: seq<Task>, docs: map<string, bool>, links: map<string, int>,
                isDraggingOver: bool): (v: ColumnView)
    ensures v.badge == |v.cards| == |ColumnTasks(tasks, status)|
    ensures forall i :: 0 <= i < |v.cards| ==>
      && v.cards[i].task == ColumnTasks(tasks, status)[i] && v.cards[i].index == i
      && v.cards[i].hasDocument == HasDocument(docs, v.cards[i].task.id)
      && v.cards[i].linksCount == LinksCount(links, v.cards[i].task.id)
    ensures v.showEmptyPlaceholder <==> v.cards == [] && !isDraggingOver
    ensures v.showDropHint <==> v.cards == [] && isDraggingOver
    ensures !(v.showEmptyPlaceholder && v.showDropHint)
    ensures ParseStatus(v.droppableId) == Some(status)
    ensures v.addStatus == status
  {
    var column := ColumnTasks(tasks, status);
    var cards := seq(|column|, i requires 0 <= i < |column| =>
      CardProps(column[i], i, HasDocument(docs, column[i].id), LinksCount(links, column[i].id)));
    StatusNameRoundTrip(status);
    ColumnView(cards, |column|, |column| == 0 && !isDraggingOver, |column| == 0 && isDraggingOver,
      StatusName(status), status)
  }

  /** A drag between two columns carries their status names as droppable ids, so the board accepts it
      and reads back the two statuses. */
  lemma ColumnDropsAreReadBack(taskId: string, from: Status, i: int, to: Status, j: int)
    ensures var result := KanbanBoard.DropResult(taskId,
        KanbanBoard.DraggableLocation(StatusName(from), i),
        Some(KanbanBoard.DraggableLocation(StatusName(to), j)));
      && KanbanBoard.FromColumns(result)
      && ParseStatus(result.source.droppableId) == Some(from)
      && ParseStatus(result.destination.value.droppableId) == Some(to)
  {
    StatusNameRoundTrip(from);
    StatusNameRoundTrip(to);
  }

  /** After a drag, every task with the dragged id is listed in the destination column, with its
      other fields unchanged, and in no other column. */
  lemma DraggedTaskLandsInColumn(tasks: seq<Task>, id: string, to: Status)
    ensures forall t :: t in tasks && t.id == id ==>
      t.(status := to) in ColumnTasks(KanbanBoard.WithStatus(tasks, id, to), to)
    ensures forall s, t :: s != to && t in ColumnTasks(KanbanBoard.WithStatus(tasks, id, to), s) ==> t.id != id
  {
    var moved := KanbanBoard.WithStatus(tasks, id, to);
    KanbanBoard.WithStatusChangesOnlyStatus(tasks, id, to);
    forall t | t in tasks && t.id == id
      ensures t.(status := to) in moved
    {
      var i :| 0 <= i < |tasks| && tasks[i] == t;
      assert moved[i] == t.(status := to);
    }
    forall s, t | s != to && t in ColumnTasks(moved, s)
      ensures t.id != id
    {
      var i :| 0 <= i < |moved| && moved[i] == t;
    }
  }
}
