/** The header of a user story on the board: the story-point rollup with its override, subtask
    progress, acceptance-criteria counts and the badges they decide. */
module UserStorySection {
  import opened JsText
  import opened Lists
  import opened Types

  /** `st.story_points || 0` */
  function SubtaskPointsOrZero(st: Subtask): int {
    if st.story_points.Some? then st.story_points.value else 0
  }

  /** `subtaskSPTotal`: the sum of the subtasks' story points, null counting as 0. */
  function SubtaskPointsTotal(subtasks: seq<Subtask>): (r: int)
    ensures subtasks == [] ==> r == 0
  {
    Sum(subtasks, SubtaskPointsOrZero)
  }

  /** Adding a subtask adds its story points to the rollup, or nothing when it has none. */
  lemma PointsTotalAppend(subtasks: seq<Subtask>, st: Subtask)
    ensures SubtaskPointsTotal(subtasks + [st]) ==
      SubtaskPointsTotal(subtasks) + (if st.story_points.Some? then st.story_points.value else 0)
  {
    SumConcat(subtasks, [st], SubtaskPointsOrZero);
  }

  /** `displaySP`: the story's own points when it overrides the rollup, the rollup otherwise. */
  function DisplayPoints(story: UserStory, subtasks: seq<Subtask>): (r: Option<int>)
    ensures story.story_points_override ==> r == story.story_points
    ensures !story.story_points_override ==> r == Some(SubtaskPointsTotal(subtasks))
  {
    if story.story_points_override then story.story_points else Some(SubtaskPointsTotal(subtasks))
  }

  function IsDoneSubtask(st: Subtask): bool {
    st.status == Done
  }

  /** `doneSubtasks`: never more than the number of subtasks. */
  function DoneSubtasks(subtasks: seq<Subtask>): (n: nat)
    ensures n <= |subtasks|
  {
    Count(subtasks, IsDoneSubtask)
  }

  /** When every subtask is done, all of them count as done. */
  lemma AllDoneCounted(subtasks: seq<Subtask>)
    requires forall st :: st in subtasks ==> st.status == Done
    ensures DoneSubtasks(subtasks) == |subtasks|
  {
    FilterKeepsAll(subtasks, IsDoneSubtask);
  }

  /** `progressPercent`: 0 without subtasks, otherwise the done share rounded to a whole percent,
      always within 0..100, and 100 when every subtask counts as done. */
  function ProgressPercent(subtasks: seq<Subtask>): (r: int)
    ensures subtasks == [] ==> r == 0
    ensures 0 <= r <= 100
    ensures subtasks != [] ==>
      2 * |subtasks| * r - |subtasks| <= 200 * DoneSubtasks(subtasks) < 2 * |subtasks| * r + |subtasks|
    ensures subtasks != [] && DoneSubtasks(subtasks) == |subtasks| ==> r == 100
  {
    if |subtasks| > 0 then RoundPercent(DoneSubtasks(subtasks), |subtasks|) else 0
  }

  function IsCompleted(c: AcceptanceCriterion): bool {
    c.is_completed
  }

  /** `completedCriteria`: never more than the number of criteria. */
  function CompletedCriteria(criteria: seq<AcceptanceCriterion>): (n: nat)
    ensures n <= |criteria|
  {
    Count(criteria, IsCompleted)
  }

  /** What the header shows. `pointsBadge` holds the points and the override mark when the badge is
      shown; `emptyStoryAdd` is the request of the add button of an expanded story without subtasks. */
  datatype SectionHeader = SectionHeader(
    priority: PriorityConfig, pointsBadge: Option<(int, bool)>, criteriaBadge: Option<(nat, nat)>,
    progressPercent: int, doneSubtasks: nat, totalSubtasks: nat, emptyStoryAdd: Option<(string, Status)>)

  function Header(story: UserStory, subtasks: seq<Subtask>, criteria: seq<AcceptanceCriterion>,
                  isExpanded: bool): (h: SectionHeader)
    ensures h.priority == PriorityConfigOf(story.priority)
    ensures h.pointsBadge.Some? <==> DisplayPoints(story, subtasks).Some? && DisplayPoints(story, subtasks).value > 0
    ensures h.pointsBadge.Some? ==>
      h.pointsBadge.value == (DisplayPoints(story, subtasks).value, story.story_points_override)
    ensures h.criteriaBadge.Some? <==> |criteria| > 0
    ensures h.criteriaBadge.Some? ==> h.criteriaBadge.value.0 <= h.criteriaBadge.value.1 == |criteria|
    ensures h.criteriaBadge.Some? ==> h.criteriaBadge.value.0 == CompletedCriteria(criteria)
    ensures h.doneSubtasks <= h.totalSubtasks == |subtasks|
    ensures h.doneSubtasks == DoneSubtasks(subtasks)
    ensures 0 <= h.progressPercent <= 100
    ensures h.progressPercent == ProgressPercent(subtasks)
    ensures h.emptyStoryAdd.Some? <==> isExpanded && subtasks == []
    ensures h.emptyStoryAdd.Some? ==> h.emptyStoryAdd.value == (story.id, Backlog)
  {
    var sp := DisplayPoints(story, subtasks);
    SectionHeader(
      PriorityConfigOf(story.priority),
      if sp.Some? && sp.value > 0 then Some((sp.value, story.story_points_override)) else None,
      if |criteria| > 0 then Some((CompletedCriteria(criteria), |criteria|)) else None,
      ProgressPercent(subtasks), DoneSubtasks(subtasks), |subtasks|,
      if isExpanded && |subtasks| == 0 then Some((story.id, Backlog)) else None)
  }
}
