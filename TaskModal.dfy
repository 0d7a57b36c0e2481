/** The task dialog: its form fields, the effect that loads a task into them (or clears them for a
    new task), and the payload its submit hands to the board. */
module TaskModal {
  import opened JsText
  import opened Types

  /** The `Partial<Task>` passed to `onSave`. The type leaves `status` optional; the board falls back
      to its column default when it is absent. */
  datatype TaskData = TaskData(
    title: string, description: Option<string>, story_points: Option<int>,
    google_doc_link: Option<string>, status: Option<Status>)

  /** The values of the form's fields. */
  datatype Form = Form(
    title: string, description: string, storyPoints: string, googleDocLink: string, status: Status)

  /** The fields the open effect writes: the task's values, `''` for its null texts and points, or
      empty fields and status `backlog` when there is no task. */
  function FormOf(task: Option<Task>): (f: Form)
    ensures task.None? ==> f == Form("", "", "", "", Backlog)
    ensures task.Some? ==> f.title == task.value.title && f.status == task.value.status
    ensures task.Some? ==> f.description == OrEmpty(task.value.description)
    ensures task.Some? ==> f.googleDocLink == OrEmpty(task.value.google_doc_link)
    ensures task.Some? ==> (f.storyPoints == "" <==> task.value.story_points.None?)
  {
    match task
    case None => Form("", "", "", "", Backlog)
    case Some(t) =>
      Form(t.title, OrEmpty(t.description), NumberFieldText(t.story_points), OrEmpty(t.google_doc_link), t.status)
  }

  /** What submit hands to `onSave`: nothing for a blank title; otherwise the trimmed title, the
      trimmed description and link or null when blank, the parsed points and the selected status. */
  function Payload(f: Form): (r: Option<TaskData>)
    ensures r.None? <==> Blank(f.title)
    ensures r.Some? ==> r.value.title == Trim(f.title) && r.value.title != []
    ensures r.Some? ==> r.value.description == TrimOrNull(f.description)
    ensures r.Some? ==> r.value.google_doc_link == TrimOrNull(f.googleDocLink)
    ensures r.Some? ==> r.value.status == Some(f.status)
    ensures r.Some? && Blank(f.storyPoints) ==> r.value.story_points == None
    ensures r.Some? ==> r.value.story_points == NumberFieldValue(f.storyPoints)
  {
    if Blank(f.title) then None
    else
      Some(TaskData(
        Trim(f.title), TrimOrNull(f.description), NumberFieldValue(f.storyPoints),
        TrimOrNull(f.googleDocLink), Some(f.status)))
  }

  /** Every payload carries a status, so the board's column default never decides a new task's
      status when it comes from this dialog. */
  lemma PayloadHasStatus(f: Form)
    ensures Payload(f).Some? ==> Payload(f).value.status.Some?
  {
  }

  /** Opening a task and submitting the form untouched hands back the task's own values, provided
      its title is trimmed and non-empty and its description and link are trimmed and not `''`. */
  lemma {:induction false} LoadSubmitRoundTrip(task: Task)
    requires task.title != [] && Trimmed(task.title)
    requires StableText(task.description) && StableText(task.google_doc_link)
    ensures Payload(FormOf(Some(task))) ==
      Some(TaskData(task.title, task.description, task.story_points, task.google_doc_link, Some(task.status)))
  {
    TrimOfTrimmed(task.title);
    NullableTextRoundTrip(task.description);
    NullableTextRoundTrip(task.google_doc_link);
    NumberFieldRoundTrip(task.story_points);
  }

  /** The dialog's state. */
  class TaskForm {
    var title: string
    var description: string
    var storyPoints: string
    var googleDocLink: string
    var status: Status
    var saving: bool
    var deleting: bool
    var showDeleteConfirm: bool

    /** The current field values. */
    function Fields(): Form
      reads this
    {
      Form(title, description, storyPoints, googleDocLink, status)
    }

    /** The initial `useState` values. */
    constructor ()
      ensures Fields() == FormOf(None)
      ensures !saving && !deleting && !showDeleteConfirm
    {
      title, description, storyPoints, googleDocLink, status := "", "", "", "", Backlog;
      saving, deleting, showDeleteConfirm := false, false, false;
    }

    /** The effect run whenever the dialog opens or its task changes. */
    method Open(task: Option<Task>)
      modifies this
      ensures Fields() == FormOf(task)
      ensures !showDeleteConfirm
      ensures saving == old(saving) && deleting == old(deleting)
    {
      if task.Some? {
        var t := task.value;
        title := t.title;
        description := OrEmpty(t.description);
        storyPoints := NumberFieldText(t.story_points);
        googleDocLink := OrEmpty(t.google_doc_link);
        status := t.status;
      } else {
        title := "";
        description := "";
        storyPoints := "";
        googleDocLink := "";
        status := Backlog;
      }
      showDeleteConfirm := false;
    }

    /** `setSaving` */
    method SetSaving(value: bool)
      modifies this
      ensures saving == value && Fields() == old(Fields())
      ensures deleting == old(deleting) && showDeleteConfirm == old(showDeleteConfirm)
    {
      saving := value;
    }

    /** `setDeleting` */
    method SetDeleting(value: bool)
      modifies this
      ensures deleting == value && Fields() == old(Fields())
      ensures saving == old(saving) && showDeleteConfirm == old(showDeleteConfirm)
    {
      deleting := value;
    }

    /** `handleSubmit`: `sent` is what is handed to `onSave` (nothing for a blank title);
        `saveSucceeded` is whether `onSave` resolved; the dialog asks to close only then. */
    method Submit(saveSucceeded: bool) returns (sent: Option<TaskData>, closes: bool)
      modifies this
      ensures sent == Payload(old(Fields()))
      ensures closes <==> sent.Some? && saveSucceeded
      ensures Fields() == old(Fields()) && deleting == old(deleting)
      ensures showDeleteConfirm == old(showDeleteConfirm)
      ensures saving == (if sent.None? then old(saving) else false)
    {
      sent := Payload(Fields());
      closes := sent.Some? && saveSucceeded;
      if sent.Some? {
        SetSaving(true);
        SetSaving(false);
      }
    }

    /** `handleDelete`: nothing without a delete handler; otherwise the handler is called and the
        dialog asks to close when it resolved. */
    method Delete(hasDeleteHandler: bool, deleteSucceeded: bool) returns (called: bool, closes: bool)
      modifies this
      ensures called == hasDeleteHandler
      ensures closes <==> called && deleteSucceeded
      ensures deleting == (if called then false else old(deleting))
      ensures Fields() == old(Fields()) && saving == old(saving)
      ensures showDeleteConfirm == old(showDeleteConfirm)
    {
      called := hasDeleteHandler;
      closes := called && deleteSucceeded;
      if called {
        SetDeleting(true);
        SetDeleting(false);
      }
    }
  }
}
