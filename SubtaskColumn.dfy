/** One status column inside a user story: its subtasks, the assignee of each card, the badge,
    the placeholders and the droppable id that encodes both the story and the status. */
module SubtaskColumn {
  import opened JsText
  import opened Lists
  import opened Types

  /** `st => st.status === status` */
  function SubtaskStatusIs(status: Status): Subtask -> bool {
    (st: Subtask) => st.status == status
  }

  /** `subtasks.filter(st => st.status === status)`: exactly the subtasks of that status, in order. */
  function ColumnSubtasks(subtasks: seq<Subtask>, status: Status): (r: seq<Subtask>)
    ensures IsSubsequence(r, subtasks)
    ensures forall st :: st in r <==> st in subtasks && st.status == status
  {
    FilterIsSubsequence(subtasks, SubtaskStatusIs(status));
    Filter(subtasks, SubtaskStatusIs(status))
  }

  /** `` `${userStoryId}:${status}` `` */
  function DroppableId(userStoryId: string, status: Status): string {
    userStoryId + ":" + StatusName(status)
  }

  /** Reads a droppable id back: the story id before the last `:` and the status after it. */
  function SplitDroppableId(id: string): Option<(string, Status)> {
    match LastIndexOf(id, ':')
    case None => None
    case Some(k) =>
      match ParseStatus(id[k + 1..])
      case None => None
      case Some(status) => Some((id[..k], status))
  }

  /** Since no status name contains `:`, splitting a droppable id at its last `:` recovers the story
      id and the status it was made from. */
  lemma DroppableIdRoundTrip(userStoryId: string, status: Status)
    ensures SplitDroppableId(DroppableId(userStoryId, status)) == Some((userStoryId, status))
  {
    var id := DroppableId(userStoryId, status);
    var name := StatusName(status);
    var n := |userStoryId|;
    StatusNameHasNoColon(status);
    assert id[n] == ':';
    var k := LastIndexOf(id, ':');
    assert k == Some(n);
    assert id[..n] == userStoryId;
    assert id[n + 1..] == name;
    StatusNameRoundTrip(status);
  }

  /** Distinct (story, status) pairs get distinct droppable ids. */
  lemma DroppableIdInjective(story1: string, status1: Status, story2: string, status2: Status)
    requires DroppableId(story1, status1) == DroppableId(story2, status2)
    ensures story1 == story2 && status1 == status2
  {
    DroppableIdRoundTrip(story1, status1);
    DroppableIdRoundTrip(story2, status2);
  }

  /** The index of the first member with that id, as `find` visits them. */
  function FindById(members: seq<Profile>, id: string): (r: Option<nat>)
    ensures r.Some? ==> r.value < |members| && members[r.value].id == id
    ensures r.Some? ==> forall j :: 0 <= j < r.value ==> members[j].id != id
    ensures r.None? ==> forall m :: m in members ==> m.id != id
  {
    if members == [] then None
    else if members[0].id == id then Some(0)
    else
      match FindById(members[1..], id)
      case None => None
      case Some(k) => Some(k + 1)
  }

  /** `getAssignee`: no one for a null or empty assignee; otherwise the first team member with that
      id, or no one when none has it. */
  function GetAssignee(members: seq<Profile>, assignedTo: Option<string>): (r: Option<Profile>)
    ensures assignedTo.None? || assignedTo == Some("") ==> r.None?
    ensures r.Some? ==> assignedTo == Some(r.value.id) && r.value in members
    ensures r.Some? ==>
      exists k :: 0 <= k < |members| && members[k] == r.value && (forall j :: 0 <= j < k ==> members[j].id != r.value.id)
    ensures r.None? && assignedTo.Some? && assignedTo.value != "" ==>
      forall m :: m in members ==> m.id != assignedTo.value
  {
    if assignedTo.None? || assignedTo.value == "" then None
    else
      match FindById(members, assignedTo.value)
      case None => None
      case Some(k) => Some(members[k])
  }

  /** The props a subtask card receives. */
  datatype SubtaskCardProps = SubtaskCardProps(subtask: Subtask, index: nat, assignee: Option<Profile>)

  /** What a subtask column shows; `addRequest` is the (story, status) its add buttons request. */
  datatype SubtaskColumnView = SubtaskColumnView(
    cards: seq<SubtaskCardProps>, badge: nat, showEmptyPlaceholder: bool, showDropHint: bool,
    droppableId: string, addRequest: (string, Status))

  function View(userStoryId: string, status: Status, subtasks: seq<Subtask>, members: seq<Profile>,
                isDraggingOver: bool): (v: SubtaskColumnView)
    ensures v.badge == |v.cards| == |ColumnSubtasks(subtasks, status)|
    ensures forall i :: 0 <= i < |v.cards| ==>
      && v.cards[i].subtask == ColumnSubtasks(subtasks, status)[i] && v.cards[i].index == i
      && v.cards[i].assignee == GetAssignee(members, v.cards[i].subtask.assigned_to)
    ensures v.showEmptyPlaceholder <==> v.cards == [] && !isDraggingOver
    ensures v.showDropHint <==> v.cards == [] && isDraggingOver
    ensures SplitDroppableId(v.droppableId) == Some((userStoryId, status))
    ensures v.addRequest == (userStoryId, status)
  {
    var column := ColumnSubtasks(subtasks, status);
    var cards := seq(|column|, i requires 0 <= i < |column| =>
      SubtaskCardProps(column[i], i, GetAssignee(members, column[i].assigned_to)));
    DroppableIdRoundTrip(userStoryId, status);
    SubtaskColumnView(cards, |column|, |column| == 0 && !isDraggingOver, |column| == 0 && isDraggingOver,
      DroppableId(userStoryId, status), (userStoryId, status))
  }
}
