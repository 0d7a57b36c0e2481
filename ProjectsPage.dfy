/** The projects page: the list of the user's projects, the create form and the delete button. Each
    handler is given the answer of the database call it makes, and the model states what the page's
    state becomes for every answer. */
module ProjectsPage {
  import opened JsText
  import opened Lists
  import opened Types

  /** The row the create form inserts. */
  datatype ProjectInsert = ProjectInsert(name: string, description: Option<string>, user_id: string)

  /** The insert of a project named `name` with description `description` for user `userId`: the name
      trimmed, the description trimmed or null when blank. */
  function InsertPayload(name: string, description: string, userId: string): (r: ProjectInsert)
    ensures r.name == Trim(name) && r.user_id == userId
    ensures r.description == TrimOrNull(description)
  {
    ProjectInsert(Trim(name), TrimOrNull(description), userId)
  }

  /** The payload of a name the form accepts is a non-empty trimmed name; its description is null
      or non-empty and trimmed, and re-entering what was stored gives the same payload. */
  lemma PayloadIsClean(name: string, description: string, userId: string)
    requires !Blank(name)
    ensures var r := InsertPayload(name, description, userId);
      r.name != [] && Trimmed(r.name) &&
      (r.description.None? || (r.description.value != [] && Trimmed(r.description.value))) &&
      InsertPayload(r.name, OrEmpty(r.description), userId) == r
  {
    var r := InsertPayload(name, description, userId);
    TrimOfTrimmed(r.name);
    if r.description.Some? {
      TrimOfTrimmed(r.description.value);
    }
  }

  /** `p => p.id !== projectId` */
  function IdIsNot(projectId: string): Project -> bool {
    (p: Project) => p.id != projectId
  }

  /** The list after the project `projectId` is deleted: every other project, in the same order. */
  function Without(projects: seq<Project>, projectId: string): (r: seq<Project>)
    ensures IsSubsequence(r, projects)
    ensures forall p :: p in r <==> p in projects && p.id != projectId
  {
    FilterIsSubsequence(projects, IdIsNot(projectId));
    Filter(projects, IdIsNot(projectId))
  }

  /** Deleting a project just created, whose id no other project has, gives back the list it was
      added to. */
  lemma DeleteUndoesCreate(created: Project, projects: seq<Project>)
    requires forall p :: p in projects ==> p.id != created.id
    ensures Without([created] + projects, created.id) == projects
  {
    FilterConcat([created], projects, IdIsNot(created.id));
    assert [created][1..] == [];
    FilterKeepsAll(projects, IdIsNot(created.id));
  }

  /** The page's state. */
  class ProjectsPageState {
    var projects: seq<Project>
    var loading: bool
    var showModal: bool
    var newProjectName: string
    var newProjectDescription: string
    var creating: bool
    var deletingId: Option<string>

    constructor ()
      ensures projects == [] && loading && !showModal
      ensures newProjectName == "" && newProjectDescription == ""
      ensures !creating && deletingId == None
    {
      projects := [];
      loading := true;
      showModal := false;
      newProjectName := "";
      newProjectDescription := "";
      creating := false;
      deletingId := None;
    }

    /** The create dialog's inputs. */
    method EnterProject(name: string, description: string)
      modifies this
      ensures newProjectName == name && newProjectDescription == description
      ensures projects == old(projects) && loading == old(loading) && showModal == old(showModal)
      ensures creating == old(creating) && deletingId == old(deletingId)
    {
      newProjectName := name;
      newProjectDescription := description;
    }

    /** `fetchProjects`, given the answer of the query (newest first): its rows, none when it holds
        none, replace the list; a failure leaves the list; loading ends either way. */
    method FetchProjects(response: Response<Option<seq<Project>>>)
      modifies this
      ensures response.Data? && response.row.Some? ==> projects == response.row.value
      ensures response.Data? && response.row.None? ==> projects == []
      ensures response.Error? ==> projects == old(projects)
      ensures !loading
      ensures showModal == old(showModal) && creating == old(creating) && deletingId == old(deletingId)
      ensures newProjectName == old(newProjectName) && newProjectDescription == old(newProjectDescription)
    {
      if response.Data? {
        projects := if response.row.Some? then response.row.value else [];
      }
      loading := false;
    }

    /** `handleCreateProject`. A blank name does nothing at all. Otherwise `userId` is the signed-in
        user, if any, and `response` the answer of the insert: without a user nothing is inserted;
        with one the payload is sent, and a returned row goes first in the list, closes the dialog and
        clears the form, while a failure changes neither. `creating` ends false whenever the name was
        not blank. `sent` is the inserted payload. */
    method HandleCreateProject(userId: Option<string>, response: Response<Project>)
      returns (sent: Option<ProjectInsert>)
      modifies this
      ensures sent.Some? <==> !Blank(old(newProjectName)) && userId.Some?
      ensures sent.Some? ==> sent.value == InsertPayload(old(newProjectName), old(newProjectDescription), userId.value)
      ensures sent.Some? && response.Data? ==>
        projects == [response.row] + old(projects) && !showModal &&
        newProjectName == "" && newProjectDescription == ""
      ensures sent.None? || response.Error? ==>
        projects == old(projects) && showModal == old(showModal) &&
        newProjectName == old(newProjectName) && newProjectDescription == old(newProjectDescription)
      ensures Blank(old(newProjectName)) ==> creating == old(creating)
      ensures !Blank(old(newProjectName)) ==> !creating
      ensures loading == old(loading) && deletingId == old(deletingId)
    {
      var name, description := newProjectName, newProjectDescription;
      if Blank(name) {
        return None;
      }
      creating := true;
      if userId.None? {
        creating := false;
        return None;
      }
      sent := Some(InsertPayload(name, description, userId.value));
      if response.Data? {
        Created(response.row);
      }
      creating := false;
    }

    /** The state a returned row leaves: the new project first, the dialog closed, the form cleared. */
    method Created(row: Project)
      modifies this
      ensures projects == [row] + old(projects) && !showModal
      ensures newProjectName == "" && newProjectDescription == ""
      ensures loading == old(loading) && creating == old(creating) && deletingId == old(deletingId)
    {
      projects := [row] + projects;
      showModal := false;
      newProjectName := "";
      newProjectDescription := "";
    }

    /** `handleDeleteProject`, given whether the delete failed: success removes the project with that
        id and keeps the others in order, failure leaves the list; `deletingId` ends null either way. */
    method HandleDeleteProject(projectId: string, failed: bool)
      modifies this
      ensures !failed ==> projects == Without(old(projects), projectId)
      ensures failed ==> projects == old(projects)
      ensures deletingId == None
      ensures loading == old(loading) && showModal == old(showModal) && creating == old(creating)
      ensures newProjectName == old(newProjectName) && newProjectDescription == old(newProjectDescription)
    {
      deletingId := Some(projectId);
      if !failed {
        projects := Without(projects, projectId);
      }
      deletingId := None;
    }
  }
}
