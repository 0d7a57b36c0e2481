/** A board task's card: which badges and controls it shows, and the planning-poker session its
    estimation button opens. The markdown stripping of the description preview is a parameter. */
module TaskCard {
  import opened JsText
  import opened Types

  /** `story_points === null || story_points === 0`: the task still waits for an estimate. */
  predicate NeedsEstimation(points: Option<int>) {
    points == None || points == Some(0)
  }

  /** `story_points !== null && story_points > 0`: the points badge, with the points it shows. */
  function PointsBadge(points: Option<int>): (r: Option<int>)
    ensures r.Some? <==> points.Some? && points.value > 0
    ensures r.Some? ==> r == points
  {
    if points.Some? && points.value > 0 then points else None
  }

  /** For points that are null or non-negative, a card shows exactly one of the points badge and the
      "not estimated" marker; a negative value shows neither. */
  lemma BadgeOrEstimation(points: Option<int>)
    ensures (PointsBadge(points).Some? != NeedsEstimation(points)) <==> points.None? || points.value >= 0
    ensures points.Some? && points.value < 0 ==> PointsBadge(points).None? && !NeedsEstimation(points)
  {
  }

  /** The estimation control shown to a product manager: its caption, and whether it is busy (a
      spinner in place of the caption, and disabled). */
  datatype Control = Control(caption: string, busy: bool)

  /** What a card shows besides its title. */
  datatype CardView = CardView(
    unestimated: bool, preview: Option<string>, pointsBadge: Option<int>, documentBadge: bool,
    linksBadge: Option<int>, control: Option<Control>)

  const EstimateCaption: string := "Estimar (Planning Poker)"
  const ReestimateCaption: string := "Re-estimar"

  /** `description ? stripMarkdown(description) : null`, shown only when non-empty. */
  function Preview(description: Option<string>, strip: string -> string): (r: Option<string>)
    ensures description.None? || description.value == [] ==> r.None?
    ensures r.Some? ==> r.value != [] && r.value == strip(description.value)
    ensures description.Some? && description.value != [] && strip(description.value) != [] ==>
      r == Some(strip(description.value))
  {
    if description.Some? && description.value != [] && strip(description.value) != [] then
      Some(strip(description.value))
    else None
  }

  /** The card of `task` for a viewer with role `userRole`. */
  function View(
    task: Task, userRole: Option<string>, hasDocument: bool, linksCount: int, isCreating: bool,
    strip: string -> string): (v: CardView)
    ensures v.unestimated <==> NeedsEstimation(task.story_points)
    ensures v.pointsBadge == PointsBadge(task.story_points)
    ensures v.preview == Preview(task.description, strip)
    ensures v.documentBadge == hasDocument
    ensures v.linksBadge.Some? <==> linksCount > 0
    ensures v.linksBadge.Some? ==> v.linksBadge.value == linksCount
    ensures v.control.Some? <==> userRole == Some("pm")
    ensures v.control.Some? ==>
      && v.control.value.busy == isCreating
      && v.control.value.caption ==
        (if NeedsEstimation(task.story_points) then EstimateCaption else ReestimateCaption)
  {
    var needs := NeedsEstimation(task.story_points);
    CardView(
      needs, Preview(task.description, strip), PointsBadge(task.story_points), hasDocument,
      if linksCount > 0 then Some(linksCount) else None,
      if userRole == Some("pm") then
        Some(Control(if needs then EstimateCaption else ReestimateCaption, isCreating))
      else None)
  }

  /** Only a product manager sees an estimation control, and it offers a first estimate exactly when
      the task has none. */
  lemma ControlOnlyForPm(task: Task, userRole: Option<string>, hasDocument: bool, linksCount: int, strip: string -> string)
    ensures var v := View(task, userRole, hasDocument, linksCount, false, strip);
      && (userRole != Some("pm") ==> v.control.None?)
      && (userRole == Some("pm") ==>
        (v.control.value.caption == EstimateCaption <==> NeedsEstimation(task.story_points)))
  {
  }

  /** The row inserted into `voting_sessions`. */
  datatype SessionInsert = SessionInsert(task_id: string, created_by: string, status: SessionStatus)

  /** The row a click inserts: none without a signed-in user; otherwise a session for this task,
      created by that user, open for voting. */
  function SessionInsertFor(task: Task, user: Option<string>): (r: Option<SessionInsert>)
    ensures r.None? <==> user.None?
    ensures r.Some? ==>
      r.value.task_id == task.id && r.value.created_by == user.value && r.value.status == Voting
  {
    if user.None? then None else Some(SessionInsert(task.id, user.value, Voting))
  }

  /** How a click ends: an alert asking to sign in, an alert that the session could not be created,
      or navigation to the new session's voting page. */
  datatype Outcome = NotSignedIn | Failed | Opened(path: string)

  /** `/projects/${projectId}/voting/${sessionId}` */
  function VotingPath(projectId: string, sessionId: string): (r: string)
    ensures StartsWith(r, "/projects/" + projectId + "/voting/")
    ensures |r| == 18 + |projectId| + |sessionId| && r[18 + |projectId|..] == sessionId
  {
    var prefix := "/projects/" + projectId + "/voting/";
    assert (prefix + sessionId)[..|prefix|] == prefix;
    assert (prefix + sessionId)[|prefix|..] == sessionId;
    prefix + sessionId
  }

  /** The card's own state. */
  class Card {
    var isCreating: bool

    constructor ()
      ensures !isCreating
    {
      isCreating := false;
    }

    /** `createVotingSession`: `user` is the signed-in user's id, if any; `response` is what the
        insert returns. The busy flag is cleared on every path. */
    method CreateVotingSession(task: Task, user: Option<string>, response: Response<VotingSession>)
      returns (insert: Option<SessionInsert>, outcome: Outcome)
      modifies this
      ensures insert == SessionInsertFor(task, user)
      ensures insert.None? ==> outcome == NotSignedIn
      ensures insert.Some? && response.Error? ==> outcome == Failed
      ensures insert.Some? && response.Data? ==> outcome == Opened(VotingPath(task.project_id, response.row.id))
      ensures !isCreating
    {
      isCreating := true;
      insert := SessionInsertFor(task, user);
      if insert.None? {
        outcome := NotSignedIn;
      } else if response.Error? {
        outcome := Failed;
      } else {
        outcome := Opened(VotingPath(task.project_id, response.row.id));
      }
      isCreating := false;
    }
  }
}
