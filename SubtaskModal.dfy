/** The subtask dialog: its form fields, the effect that loads a subtask into them (or resets them for
    a new subtask in a given column), and the payload its submit hands to `onSave`. */
module SubtaskModal {
  import opened JsText
  import opened Types

  /** The value of the assignee selector's "nobody" option. */
  const Unassigned: string := "unassigned"

  /** The `Partial<Subtask>` passed to `onSave`; `kind` is the source's `type`. */
  datatype SubtaskData = SubtaskData(
    title: string, description: Option<string>, status: Status, kind: SubtaskType,
    assigned_to: Option<string>, story_points: Option<int>)

  /** The values of the form's fields. */
  datatype Form = Form(
    title: string, description: string, status: Status, kind: SubtaskType, assignedTo: string,
    storyPoints: string)

  /** `assigned_to || 'unassigned'`: the selector shows the assignee, or the "nobody" option when the
      subtask has none (null or `''`). */
  function AssigneeFieldText(assignee: Option<string>): (r: string)
    ensures r != []
    ensures assignee.Some? && assignee.value != [] ==> r == assignee.value
    ensures assignee.None? || assignee.value == [] ==> r == Unassigned
  {
    if assignee.Some? && assignee.value != [] then assignee.value else Unassigned
  }

  /** `assignedTo === 'unassigned' ? null : assignedTo` */
  function AssigneeValue(selection: string): (r: Option<string>)
    ensures r.None? <==> selection == Unassigned
    ensures r.Some? ==> r.value == selection
  {
    if selection == Unassigned then None else Some(selection)
  }

  /** Showing an assignee in the selector and submitting it gives the assignee back exactly when it is
      null or an id other than `''` and `'unassigned'`; those two come back as null. */
  lemma AssigneeRoundTrip(assignee: Option<string>)
    ensures AssigneeValue(AssigneeFieldText(assignee)) == assignee <==>
      assignee.None? || (assignee.value != [] && assignee.value != Unassigned)
    ensures assignee.Some? && (assignee.value == [] || assignee.value == Unassigned) ==>
      AssigneeValue(AssigneeFieldText(assignee)) == None
  {
  }

  /** The fields the open effect writes: the subtask's values, or for a new subtask empty texts, the
      column's default status, type `other`, nobody assigned and no points. */
  function FormOf(subtask: Option<Subtask>, defaultStatus: Status): (f: Form)
    ensures subtask.None? ==> f == Form("", "", defaultStatus, Other, Unassigned, "")
    ensures subtask.Some? ==>
      && f.title == subtask.value.title && f.status == subtask.value.status
      && f.kind == subtask.value.kind
      && f.description == OrEmpty(subtask.value.description)
      && f.assignedTo == AssigneeFieldText(subtask.value.assigned_to)
      && (f.storyPoints == "" <==> subtask.value.story_points.None?)
  {
    match subtask
    case None => Form("", "", defaultStatus, Other, Unassigned, "")
    case Some(s) =>
      Form(s.title, OrEmpty(s.description), s.status, s.kind, AssigneeFieldText(s.assigned_to),
        NumberFieldText(s.story_points))
  }

  /** What submit hands to `onSave`: nothing for a blank title; otherwise the trimmed title, the
      trimmed description or null when blank, the status and type as selected, the assignee with
      "nobody" as null, and the parsed points or null for an empty field. */
  function Payload(f: Form): (r: Option<SubtaskData>)
    ensures r.None? <==> Blank(f.title)
    ensures r.Some? ==>
      && r.value.title == Trim(f.title) && r.value.title != []
      && r.value.description == TrimOrNull(f.description)
      && r.value.status == f.status && r.value.kind == f.kind
      && r.value.assigned_to == AssigneeValue(f.assignedTo)
      && r.value.story_points == NumberFieldValue(f.storyPoints)
    ensures r.Some? && f.storyPoints == "" ==> r.value.story_points == None
  {
    if Blank(f.title) then None
    else
      Some(SubtaskData(
        Trim(f.title), TrimOrNull(f.description), f.status, f.kind, AssigneeValue(f.assignedTo),
        NumberFieldValue(f.storyPoints)))
  }

  /** Opening a subtask and submitting the form untouched hands back the subtask's own values,
      provided its title is trimmed and non-empty, its description is trimmed and not `''`, and its
      assignee is null or an id other than `''` and `'unassigned'`. */
  lemma {:induction false} LoadSubmitRoundTrip(s: Subtask, defaultStatus: Status)
    requires s.title != [] && Trimmed(s.title) && StableText(s.description)
    requires s.assigned_to.None? || (s.assigned_to.value != [] && s.assigned_to.value != Unassigned)
    ensures Payload(FormOf(Some(s), defaultStatus)) ==
      Some(SubtaskData(s.title, s.description, s.status, s.kind, s.assigned_to, s.story_points))
  {
    var f := Form(s.title, OrEmpty(s.description), s.status, s.kind, AssigneeFieldText(s.assigned_to),
      NumberFieldText(s.story_points));
    assert FormOf(Some(s), defaultStatus) == f;
    TrimOfTrimmed(s.title);
    NullableTextRoundTrip(s.description);
    AssigneeRoundTrip(s.assigned_to);
    NumberFieldRoundTrip(s.story_points);
    PayloadOfFields(f, SubtaskData(s.title, s.description, s.status, s.kind, s.assigned_to, s.story_points));
  }

  /** The payload of a form whose fields each map to the matching part of `d` is `d`. */
  lemma PayloadOfFields(f: Form, d: SubtaskData)
    requires !Blank(f.title) && Trim(f.title) == d.title && TrimOrNull(f.description) == d.description
    requires f.status == d.status && f.kind == d.kind
    requires AssigneeValue(f.assignedTo) == d.assigned_to && NumberFieldValue(f.storyPoints) == d.story_points
    ensures Payload(f) == Some(d)
  {
  }

  /** A new subtask submitted with only its title typed lands in the column it was opened from, with
      type `other`, no description, nobody assigned and no points. */
  lemma NewSubtaskDefaults(defaultStatus: Status, title: string)
    requires !Blank(title)
    ensures var f := FormOf(None, defaultStatus);
      Payload(f.(title := title)) == Some(SubtaskData(Trim(title), None, defaultStatus, Other, None, None))
  {
    assert Blank("") by { assert TrimStart("") == ""; }
  }

  /** The dialog's state. */
  class SubtaskForm {
    var title: string
    var description: string
    var status: Status
    var kind: SubtaskType
    var assignedTo: string
    var storyPoints: string
    var saving: bool
    var deleting: bool
    var showDeleteConfirm: bool

    /** The current field values. */
    function Fields(): Form
      reads this
    {
      Form(title, description, status, kind, assignedTo, storyPoints)
    }

    /** The initial `useState` values. */
    constructor ()
      ensures Fields() == Form("", "", Backlog, Other, "", "")
      ensures !saving && !deleting && !showDeleteConfirm
    {
      title, description, status, kind, assignedTo, storyPoints := "", "", Backlog, Other, "", "";
      saving, deleting, showDeleteConfirm := false, false, false;
    }

    /** The effect run whenever the dialog opens, or its subtask or default status changes. */
    method Open(subtask: Option<Subtask>, defaultStatus: Status)
      modifies this
      ensures Fields() == FormOf(subtask, defaultStatus)
      ensures !showDeleteConfirm
      ensures saving == old(saving) && deleting == old(deleting)
    {
      if subtask.Some? {
        var s := subtask.value;
        title := s.title;
        description := OrEmpty(s.description);
        status := s.status;
        kind := s.kind;
        assignedTo := AssigneeFieldText(s.assigned_to);
        storyPoints := NumberFieldText(s.story_points);
      } else {
        title := "";
        description := "";
        status := defaultStatus;
        kind := Other;
        assignedTo := Unassigned;
        storyPoints := "";
      }
      showDeleteConfirm := false;
    }

    /** `setSaving` */
    method SetSaving(value: bool)
      modifies this
      ensures saving == value && Fields() == old(Fields())
      ensures deleting == old(deleting) && showDeleteConfirm == old(showDeleteConfirm)
    {
      saving := value;
    }

    /** `setDeleting` */
    method SetDeleting(value: bool)
      modifies this
      ensures deleting == value && Fields() == old(Fields())
      ensures saving == old(saving) && showDeleteConfirm == old(showDeleteConfirm)
    {
      deleting := value;
    }

    /** `handleSubmit`: `sent` is what is handed to `onSave` (nothing for a blank title);
        `saveSucceeded` is whether `onSave` resolved; the dialog asks to close only then. */
    method Submit(saveSucceeded: bool) returns (sent: Option<SubtaskData>, closes: bool)
      modifies this
      ensures sent == Payload(old(Fields()))
      ensures closes <==> sent.Some? && saveSucceeded
      ensures Fields() == old(Fields()) && deleting == old(deleting)
      ensures showDeleteConfirm == old(showDeleteConfirm)
      ensures saving == (if sent.None? then old(saving) else false)
    {
      sent := Payload(Fields());
      closes := sent.Some? && saveSucceeded;
      if sent.Some? {
        SetSaving(true);
        SetSaving(false);
      }
    }

    /** `handleDelete`: nothing without a delete handler; otherwise the handler is called and the
        dialog asks to close when it resolved. */
    method Delete(hasDeleteHandler: bool, deleteSucceeded: bool) returns (called: bool, closes: bool)
      modifies this
      ensures called == hasDeleteHandler
      ensures closes <==> called && deleteSucceeded
      ensures deleting == (if called then false else old(deleting))
      ensures Fields() == old(Fields()) && saving == old(saving)
      ensures showDeleteConfirm == old(showDeleteConfirm)
    {
      called := hasDeleteHandler;
      closes := called && deleteSucceeded;
      if called {
        SetDeleting(true);
        SetDeleting(false);
      }
    }
  }
}
