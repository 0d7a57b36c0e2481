/** A subtask's card: its type badge, which badges and controls it shows, the assignee's avatar, and
    the planning-poker session its estimation button opens. The estimation rule, the points badge,
    the description preview and the voting page's path are the task card's. */
module SubtaskCard {
  import opened JsText
  import opened Types
  import opened TaskCard

  const ShortEstimateCaption: string := "Estimar"

  /** The caption of the estimation button: a first estimate, or a new one. */
  function ControlCaption(points: Option<int>): (r: string)
    ensures r == ShortEstimateCaption <==> NeedsEstimation(points)
    ensures r == ReestimateCaption <==> !NeedsEstimation(points)
  {
    if NeedsEstimation(points) then ShortEstimateCaption else ReestimateCaption
  }

  /** The assignee's avatar and its tooltip. */
  datatype AssigneeBadge = AssigneeBadge(avatar: Option<SlothAvatarId>, tooltip: string)

  /** What a card shows besides its title. */
  datatype SubtaskCardView = SubtaskCardView(
    typeBadge: SubtaskTypeConfig, unestimated: bool, preview: Option<string>,
    pointsBadge: Option<int>, assignee: Option<AssigneeBadge>, control: Option<Control>)

  /** `assignee.full_name || assignee.email || ''` */
  function Tooltip(p: Profile): (r: string)
    ensures p.full_name.Some? && p.full_name.value != [] ==> r == p.full_name.value
    ensures (p.full_name.None? || p.full_name.value == []) ==> r == OrEmpty(p.email)
  {
    OrElse(p.full_name, OrEmpty(p.email))
  }

  /** The card of `subtask` for a viewer with role `userRole`; `assignee` is the profile the column
      looked up, if any. */
  function SubtaskView(
    subtask: Subtask, userRole: Option<string>, assignee: Option<Profile>, isCreating: bool,
    strip: string -> string): (v: SubtaskCardView)
    ensures v.typeBadge == SubtaskTypeConfigOf(subtask.kind)
    ensures v.unestimated <==> NeedsEstimation(subtask.story_points)
    ensures v.pointsBadge == PointsBadge(subtask.story_points)
    ensures v.preview == Preview(subtask.description, strip)
    ensures v.assignee.Some? <==> assignee.Some?
    ensures v.assignee.Some? ==> v.assignee.value.avatar == assignee.value.avatar
    ensures v.control.Some? <==> userRole == Some("pm")
    ensures v.control.Some? ==> v.control.value == Control(ControlCaption(subtask.story_points), isCreating)
  {
    SubtaskCardView(
      SubtaskTypeConfigOf(subtask.kind), NeedsEstimation(subtask.story_points),
      Preview(subtask.description, strip), PointsBadge(subtask.story_points),
      if assignee.Some? then Some(AssigneeBadge(assignee.value.avatar, Tooltip(assignee.value))) else None,
      if userRole == Some("pm") then Some(Control(ControlCaption(subtask.story_points), isCreating))
      else None)
  }

  /** Only a product manager sees an estimation control, and it offers a first estimate exactly when
      the subtask has none. */
  lemma SubtaskControlOnlyForPm(subtask: Subtask, userRole: Option<string>, assignee: Option<Profile>, strip: string -> string)
    ensures var v := SubtaskView(subtask, userRole, assignee, false, strip);
      && (userRole != Some("pm") ==> v.control.None?)
      && (userRole == Some("pm") ==>
        (v.control.value.caption == ShortEstimateCaption <==> NeedsEstimation(subtask.story_points)))
  {
  }

  /** The row inserted into `voting_sessions`. */
  datatype SubtaskSessionInsert = SubtaskSessionInsert(subtask_id: string, created_by: string, status: SessionStatus)

  /** The row a click inserts: none without a signed-in user; otherwise a session for this subtask,
      created by that user, open for voting. */
  function SubtaskSessionInsertFor(subtask: Subtask, user: Option<string>): (r: Option<SubtaskSessionInsert>)
    ensures r.None? <==> user.None?
    ensures r.Some? ==>
      r.value.subtask_id == subtask.id && r.value.created_by == user.value && r.value.status == Voting
  {
    if user.None? then None else Some(SubtaskSessionInsert(subtask.id, user.value, Voting))
  }

  /** The card's own state. */
  class SubtaskCardState {
    var isCreating: bool

    constructor ()
      ensures !isCreating
    {
      isCreating := false;
    }

    /** `createVotingSession`: `user` is the signed-in user's id, if any; `response` is what the
        insert returns; the voting page is under the card's `projectId`. The busy flag is cleared on
        every path. */
    method CreateVotingSession(
      subtask: Subtask, projectId: string, user: Option<string>, response: Response<VotingSession>)
      returns (insert: Option<SubtaskSessionInsert>, outcome: Outcome)
      modifies this
      ensures insert == SubtaskSessionInsertFor(subtask, user)
      ensures insert.None? ==> outcome == NotSignedIn
      ensures insert.Some? && response.Error? ==> outcome == Failed
      ensures insert.Some? && response.Data? ==> outcome == Opened(VotingPath(projectId, response.row.id))
      ensures !isCreating
    {
      isCreating := true;
      insert := SubtaskSessionInsertFor(subtask, user);
      if insert.None? {
        outcome := NotSignedIn;
      } else if response.Error? {
        outcome := Failed;
      } else {
        outcome := Opened(VotingPath(projectId, response.row.id));
      }
      isCreating := false;
    }
  }
}
