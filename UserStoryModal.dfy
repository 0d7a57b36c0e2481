/** The user story dialog: title, description and priority, the acceptance-criteria editor, the
    story's links, and the submit that hands the story and its criteria to the page. */
module UserStoryModal {
  import opened JsText
  import opened Lists
  import opened Types

  // ---------------------------------------------------------------------------------------------
  // Acceptance criteria editing
  // ---------------------------------------------------------------------------------------------

  /** A criterion as the editor holds it: stored criteria keep their id, new ones have none. */
  datatype CriterionEntry = CriterionEntry(id: Option<string>, description: string, is_completed: bool)

  /** `handleAddCriterion`: a blank text adds nothing; otherwise one open criterion with the trimmed
      text goes after the others. */
  function AddCriterion(criteria: seq<CriterionEntry>, text: string): (r: seq<CriterionEntry>)
    ensures Blank(text) ==> r == criteria
    ensures !Blank(text) ==>
      |r| == |criteria| + 1 && r[..|criteria|] == criteria && r[|criteria|] == CriterionEntry(None, Trim(text), false)
  {
    if Blank(text) then criteria else criteria + [CriterionEntry(None, Trim(text), false)]
  }

  /** `prev.filter((_, i) => i !== index)` */
  function RemoveAt<T>(xs: seq<T>, index: int): (r: seq<T>)
    ensures |r| <= |xs|
  {
    if xs == [] then []
    else (if index == 0 then [] else [xs[0]]) + RemoveAt(xs[1..], index - 1)
  }

  /** Removing index `i` deletes exactly that entry and keeps the others in order; an index out of
      range changes nothing. */
  lemma {:induction false} RemoveAtDeletesOneEntry<T>(xs: seq<T>, index: int)
    ensures 0 <= index < |xs| ==> RemoveAt(xs, index) == xs[..index] + xs[index + 1..]
    ensures !(0 <= index < |xs|) ==> RemoveAt(xs, index) == xs
  {
    if xs != [] {
      RemoveAtDeletesOneEntry(xs[1..], index - 1);
      if index == 0 {
        assert RemoveAt(xs, index) == RemoveAt(xs[1..], -1);
      } else if 0 < index < |xs| {
        assert xs[..index] == [xs[0]] + xs[1..][..index - 1];
        assert xs[index + 1..] == xs[1..][index..];
      } else {
        assert xs == [xs[0]] + xs[1..];
      }
    }
  }

  /** `prev.map((c, i) => i === index ? { ...c, is_completed: !c.is_completed } : c)` */
  function ToggleAt(criteria: seq<CriterionEntry>, index: int): (r: seq<CriterionEntry>)
    ensures |r| == |criteria|
  {
    seq(|criteria|, i requires 0 <= i < |criteria| =>
      if i == index then criteria[i].(is_completed := !criteria[i].is_completed) else criteria[i])
  }

  /** Toggling an entry twice restores the list. */
  lemma ToggleTwice(criteria: seq<CriterionEntry>, index: int)
    ensures ToggleAt(ToggleAt(criteria, index), index) == criteria
  {
  }

  function EntryCompleted(c: CriterionEntry): bool {
    c.is_completed
  }

  /** `completedCriteria`: the completed entries, never more than the entries. */
  function CompletedCriteria(criteria: seq<CriterionEntry>): (n: nat)
    ensures n <= |criteria|
  {
    Count(criteria, EntryCompleted)
  }

  /** Toggling an entry in range changes the completed count by exactly one. */
  lemma {:induction false} ToggleChangesCompletedByOne(criteria: seq<CriterionEntry>, index: int)
    requires 0 <= index < |criteria|
    ensures CompletedCriteria(ToggleAt(criteria, index)) ==
      CompletedCriteria(criteria) + (if criteria[index].is_completed then -1 else 1)
  {
    var toggled := ToggleAt(criteria, index);
    var before, after := criteria[..index], criteria[index + 1..];
    assert criteria == before + [criteria[index]] + after;
    assert toggled == before + [toggled[index]] + after;
    FilterConcat(before + [criteria[index]], after, EntryCompleted);
    FilterConcat(before, [criteria[index]], EntryCompleted);
    FilterConcat(before + [toggled[index]], after, EntryCompleted);
    FilterConcat(before, [toggled[index]], EntryCompleted);
    assert [criteria[index]][1..] == [] && [toggled[index]][1..] == [];
  }

  // ---------------------------------------------------------------------------------------------
  // Links
  // ---------------------------------------------------------------------------------------------

  /** The row `handleAddLink` inserts. */
  datatype LinkInsert = LinkInsert(user_story_id: string, url: string, title: Option<string>, kind: LinkType)

  /** No insert without a story or with a blank URL; otherwise the trimmed URL, the trimmed title or
      null when blank, and the selected type. */
  function LinkInsertFor(story: Option<UserStory>, url: string, title: string, kind: LinkType): (r: Option<LinkInsert>)
    ensures r.None? <==> story.None? || Blank(url)
    ensures r.Some? ==> r.value.user_story_id == story.value.id && r.value.url == Trim(url) && r.value.url != []
    ensures r.Some? ==> r.value.title == TrimOrNull(title) && r.value.kind == kind
  {
    if story.None? || Blank(url) then None
    else Some(LinkInsert(story.value.id, Trim(url), TrimOrNull(title), kind))
  }

  /** `l => l.id !== linkId` */
  function LinkIdIsNot(linkId: string): UserStoryLink -> bool {
    (l: UserStoryLink) => l.id != linkId
  }

  /** `prev.filter(l => l.id !== linkId)`: exactly the other links, in order. */
  function RemoveLink(links: seq<UserStoryLink>, linkId: string): (r: seq<UserStoryLink>)
    ensures IsSubsequence(r, links)
    ensures forall l :: l in r <==> l in links && l.id != linkId
  {
    FilterIsSubsequence(links, LinkIdIsNot(linkId));
    Filter(links, LinkIdIsNot(linkId))
  }

  // ---------------------------------------------------------------------------------------------
  // Submit
  // ---------------------------------------------------------------------------------------------

  /** The `Partial<UserStory>` handed to `onSave`. */
  datatype StoryData = StoryData(title: string, description: Option<string>, priority: UserStoryPriority)

  /** A criterion as handed to `onSave`, without its id. */
  datatype CriterionData = CriterionData(description: string, is_completed: bool)

  function CriterionDataOf(c: CriterionEntry): CriterionData {
    CriterionData(c.description, c.is_completed)
  }

  /** `criteria.map(c => ({ description, is_completed }))`: the criteria in order without their ids. */
  function CriteriaSent(criteria: seq<CriterionEntry>): (r: seq<CriterionData>)
    ensures |r| == |criteria|
    ensures forall i :: 0 <= i < |criteria| ==> r[i] == CriterionData(criteria[i].description, criteria[i].is_completed)
  {
    var sent := Map(criteria, CriterionDataOf);
    assert forall i :: 0 <= i < |criteria| ==> sent[i] == CriterionDataOf(criteria[i]) by {
      forall i | 0 <= i < |criteria| ensures sent[i] == CriterionDataOf(criteria[i]) {
        MapAt(criteria, CriterionDataOf, i);
      }
    }
    sent
  }

  /** What submit hands to `onSave`: nothing for a blank title; otherwise the trimmed title, the
      trimmed description or null, the priority, and the criteria without their ids. */
  function Submission(title: string, description: string, priority: UserStoryPriority,
                      criteria: seq<CriterionEntry>): (r: Option<(StoryData, seq<CriterionData>)>)
    ensures r.None? <==> Blank(title)
    ensures r.Some? ==> r.value == (StoryData(Trim(title), TrimOrNull(description), priority), CriteriaSent(criteria))
  {
    if Blank(title) then None
    else Some((StoryData(Trim(title), TrimOrNull(description), priority), CriteriaSent(criteria)))
  }

  /** `{ id, description, is_completed }` of a stored criterion. */
  function EntryOf(c: AcceptanceCriterion): CriterionEntry {
    CriterionEntry(Some(c.id), c.description, c.is_completed)
  }

  /** Loading stored criteria into the editor and sending them back gives each one's description
      and completion, in stored order. */
  lemma {:induction false} CriteriaRoundTrip(stored: seq<AcceptanceCriterion>)
    ensures |CriteriaSent(Map(stored, EntryOf))| == |stored|
    ensures forall i :: 0 <= i < |stored| ==>
      CriteriaSent(Map(stored, EntryOf))[i] == CriterionData(stored[i].description, stored[i].is_completed)
  {
    forall i | 0 <= i < |stored|
      ensures Map(stored, EntryOf)[i] == EntryOf(stored[i])
    {
      MapAt(stored, EntryOf, i);
    }
  }

  /** Opening a story and submitting untouched hands back its title, description and priority, and
      its criteria without ids, when the title is trimmed and non-empty and the description is
      trimmed and not `''`. */
  lemma StorySubmitRoundTrip(story: UserStory, stored: seq<AcceptanceCriterion>)
    requires story.title != [] && Trimmed(story.title) && StableText(story.description)
    ensures Submission(story.title, OrEmpty(story.description), story.priority, Map(stored, EntryOf))
      == Some((StoryData(story.title, story.description, story.priority), CriteriaSent(Map(stored, EntryOf))))
  {
    TrimOfTrimmed(story.title);
    NullableTextRoundTrip(story.description);
  }

  // ---------------------------------------------------------------------------------------------
  // The dialog
  // ---------------------------------------------------------------------------------------------

  /** The story's own fields and the dialog's save and delete state. */
  class StoryForm {
    var userStory: Option<UserStory>
    var title: string
    var description: string
    var priority: UserStoryPriority
    var saving: bool
    var deleting: bool
    var showDeleteConfirm: bool

    /** The initial `useState` values. */
    constructor ()
      ensures userStory == None && title == "" && description == "" && priority == Medium
      ensures !saving && !deleting && !showDeleteConfirm
    {
      userStory, title, description, priority := None, "", "", Medium;
      saving, deleting, showDeleteConfirm := false, false, false;
    }

    /** The opening effect's part on these fields: a story's title, description (`''` for null) and
        priority, or an empty form with priority `medium`. */
    method Open(story: Option<UserStory>)
      modifies this
      ensures userStory == story && !showDeleteConfirm
      ensures title == (if story.Some? then story.value.title else "")
      ensures description == (if story.Some? then OrEmpty(story.value.description) else "")
      ensures priority == (if story.Some? then story.value.priority else Medium)
      ensures saving == old(saving) && deleting == old(deleting)
    {
      if story.Some? {
        var s := story.value;
        userStory, title, description, priority := story, s.title, OrEmpty(s.description), s.priority;
      } else {
        userStory, title, description, priority := story, "", "", Medium;
      }
      showDeleteConfirm := false;
    }

    /** `setSaving` */
    method SetSaving(value: bool)
      modifies this
      ensures saving == value && deleting == old(deleting) && showDeleteConfirm == old(showDeleteConfirm)
      ensures title == old(title) && description == old(description) && priority == old(priority)
      ensures userStory == old(userStory)
    {
      saving := value;
    }

    /** `setDeleting` */
    method SetDeleting(value: bool)
      modifies this
      ensures deleting == value && saving == old(saving) && showDeleteConfirm == old(showDeleteConfirm)
      ensures title == old(title) && description == old(description) && priority == old(priority)
      ensures userStory == old(userStory)
    {
      deleting := value;
    }

    /** `handleSubmit`: `sent` is what is handed to `onSave` with the editor's criteria; the dialog
        asks to close only when `onSave` resolved. */
    method Submit(criteria: seq<CriterionEntry>, saveSucceeded: bool)
      returns (sent: Option<(StoryData, seq<CriterionData>)>, closes: bool)
      modifies this
      ensures sent == Submission(old(title), old(description), old(priority), criteria)
      ensures closes <==> sent.Some? && saveSucceeded
      ensures saving == (if sent.None? then old(saving) else false)
      ensures title == old(title) && description == old(description) && priority == old(priority)
      ensures userStory == old(userStory) && deleting == old(deleting)
      ensures showDeleteConfirm == old(showDeleteConfirm)
    {
      sent := Submission(title, description, priority, criteria);
      closes := sent.Some? && saveSucceeded;
      if sent.Some? {
        SetSaving(true);
        SetSaving(false);
      }
    }

    /** `handleDelete`: nothing without a delete handler; otherwise the handler is called and the
        dialog asks to close when it resolved. */
    method Delete(hasDeleteHandler: bool, deleteSucceeded: bool) returns (called: bool, closes: bool)
      modifies this
      ensures called == hasDeleteHandler
      ensures closes <==> called && deleteSucceeded
      ensures deleting == (if called then false else old(deleting))
      ensures title == old(title) && description == old(description) && priority == old(priority)
      ensures userStory == old(userStory) && saving == old(saving)
      ensures showDeleteConfirm == old(showDeleteConfirm)
    {
      called := hasDeleteHandler;
      closes := called && deleteSucceeded;
      if called {
        SetDeleting(true);
        SetDeleting(false);
      }
    }
  }

  /** The acceptance-criteria editor: the list and the text of the criterion being added. */
  class CriteriaEditor {
    var criteria: seq<CriterionEntry>
    var newCriterion: string

    constructor ()
      ensures criteria == [] && newCriterion == ""
    {
      criteria, newCriterion := [], "";
    }

    /** Opening the dialog without a story empties the list. */
    method Clear()
      modifies this
      ensures criteria == [] && newCriterion == old(newCriterion)
    {
      criteria := [];
    }

    /** `loadStoryData`'s part on criteria: the stored criteria in order with their ids; a missing
        answer counts as none. */
    method Load(rows: Option<seq<AcceptanceCriterion>>)
      modifies this
      ensures criteria == Map(if rows.Some? then rows.value else [], EntryOf)
      ensures newCriterion == old(newCriterion)
    {
      criteria := Map(if rows.Some? then rows.value else [], EntryOf);
    }

    /** `handleAddCriterion`: the input is cleared only when a criterion was added. */
    method Add()
      modifies this
      ensures criteria == AddCriterion(old(criteria), old(newCriterion))
      ensures newCriterion == (if Blank(old(newCriterion)) then old(newCriterion) else "")
    {
      var blank := Blank(newCriterion);
      criteria, newCriterion := AddCriterion(criteria, newCriterion), if blank then newCriterion else "";
    }

    /** `handleRemoveCriterion` */
    method Remove(index: int)
      modifies this
      ensures criteria == RemoveAt(old(criteria), index) && newCriterion == old(newCriterion)
    {
      criteria := RemoveAt(criteria, index);
    }

    /** `handleToggleCriterion` */
    method Toggle(index: int)
      modifies this
      ensures criteria == ToggleAt(old(criteria), index) && newCriterion == old(newCriterion)
    {
      criteria := ToggleAt(criteria, index);
    }
  }

  /** The story's document and links, and the add-link inputs. */
  class LinksPanel {
    var storyDocument: Option<UserStoryDocument>
    var links: seq<UserStoryLink>
    var showAddLink: bool
    var newLinkUrl: string
    var newLinkTitle: string
    var newLinkType: LinkType

    constructor ()
      ensures storyDocument == None && links == [] && !showAddLink
      ensures newLinkUrl == "" && newLinkTitle == "" && newLinkType == External
    {
      storyDocument, links, showAddLink := None, [], false;
      newLinkUrl, newLinkTitle, newLinkType := "", "", External;
    }

    /** The opening effect's part on the panel: the add-link form is hidden, and without a story
        there are no links and no document. */
    method Open(hasStory: bool)
      modifies this
      ensures !showAddLink
      ensures links == (if hasStory then old(links) else [])
      ensures storyDocument == (if hasStory then old(storyDocument) else None)
      ensures newLinkUrl == old(newLinkUrl) && newLinkTitle == old(newLinkTitle) && newLinkType == old(newLinkType)
    {
      if !hasStory {
        links, storyDocument := [], None;
      }
      showAddLink := false;
    }

    /** `loadStoryData`'s part on the panel: the document and the links; missing links count as none. */
    method Load(document: Option<UserStoryDocument>, rows: Option<seq<UserStoryLink>>)
      modifies this
      ensures storyDocument == document && links == (if rows.Some? then rows.value else [])
      ensures showAddLink == old(showAddLink) && newLinkUrl == old(newLinkUrl)
      ensures newLinkTitle == old(newLinkTitle) && newLinkType == old(newLinkType)
    {
      storyDocument, links := document, if rows.Some? then rows.value else [];
    }

    /** A stored link goes first, and the add-link inputs are reset and hidden. */
    method AcceptLink(row: UserStoryLink)
      modifies this
      ensures links == [row] + old(links)
      ensures newLinkUrl == "" && newLinkTitle == "" && newLinkType == External && !showAddLink
      ensures storyDocument == old(storyDocument)
    {
      links, newLinkUrl, newLinkTitle, newLinkType, showAddLink := [row] + links, "", "", External, false;
    }

    /** `handleAddLink`: `insert` is the row sent, if any; on success the stored row goes first and
        the add-link inputs are reset; otherwise nothing changes. */
    method AddLink(story: Option<UserStory>, response: Response<UserStoryLink>) returns (insert: Option<LinkInsert>)
      modifies this
      ensures insert == LinkInsertFor(story, old(newLinkUrl), old(newLinkTitle), old(newLinkType))
      ensures insert.Some? && response.Data? ==>
        && links == [response.row] + old(links)
        && newLinkUrl == "" && newLinkTitle == "" && newLinkType == External && !showAddLink
      ensures insert.None? || response.Error? ==>
        && links == old(links) && newLinkUrl == old(newLinkUrl) && newLinkTitle == old(newLinkTitle)
        && newLinkType == old(newLinkType) && showAddLink == old(showAddLink)
      ensures storyDocument == old(storyDocument)
    {
      insert := LinkInsertFor(story, newLinkUrl, newLinkTitle, newLinkType);
      if insert.Some? && response.Data? {
        AcceptLink(response.row);
      }
    }

    /** `handleDeleteLink`: the link leaves the list only when the store reports no error. */
    method DeleteLink(linkId: string, deleteSucceeded: bool)
      modifies this
      ensures links == (if deleteSucceeded then RemoveLink(old(links), linkId) else old(links))
      ensures storyDocument == old(storyDocument) && showAddLink == old(showAddLink)
      ensures newLinkUrl == old(newLinkUrl) && newLinkTitle == old(newLinkTitle) && newLinkType == old(newLinkType)
    {
      if deleteSucceeded {
        links := RemoveLink(links, linkId);
      }
    }
  }

  /** The dialog: its three groups of state and the loading flag. */
  class UserStoryDialog {
    const form: StoryForm
    const editor: CriteriaEditor
    const panel: LinksPanel
    var loadingData: bool

    constructor ()
      ensures fresh(form) && fresh(editor) && fresh(panel) && !loadingData
      ensures form.userStory == None && form.title == "" && form.description == "" && form.priority == Medium
      ensures !form.saving && !form.deleting && !form.showDeleteConfirm
      ensures editor.criteria == [] && editor.newCriterion == ""
      ensures panel.storyDocument == None && panel.links == [] && !panel.showAddLink
      ensures panel.newLinkUrl == "" && panel.newLinkTitle == "" && panel.newLinkType == External
    {
      form := new StoryForm();
      editor := new CriteriaEditor();
      panel := new LinksPanel();
      loadingData := false;
    }

    /** The effect run when the dialog opens or its story changes: a story's fields are loaded (its
        criteria, document and links then come from `LoadStoryData`); without a story the form is
        reset to priority `medium` with no criteria, links or document. Both hide the delete
        confirmation and the add-link form. */
    method Open(story: Option<UserStory>)
      modifies form, editor, panel
      ensures form.userStory == story && !form.showDeleteConfirm && !panel.showAddLink
      ensures form.title == (if story.Some? then story.value.title else "")
      ensures form.description == (if story.Some? then OrEmpty(story.value.description) else "")
      ensures form.priority == (if story.Some? then story.value.priority else Medium)
      ensures editor.criteria == (if story.Some? then old(editor.criteria) else [])
      ensures panel.links == (if story.Some? then old(panel.links) else [])
      ensures panel.storyDocument == (if story.Some? then old(panel.storyDocument) else None)
      ensures form.saving == old(form.saving) && form.deleting == old(form.deleting)
      ensures editor.newCriterion == old(editor.newCriterion)
      ensures panel.newLinkUrl == old(panel.newLinkUrl) && panel.newLinkTitle == old(panel.newLinkTitle)
      ensures panel.newLinkType == old(panel.newLinkType)
    {
      form.Open(story);
      if story.None? {
        editor.Clear();
      }
      panel.Open(story.Some?);
    }

    /** `loadStoryData`: the story's criteria in stored order with their ids, its document and its
        links, missing answers counting as none; the loading flag is down afterwards. */
    method LoadStoryData(criteriaRows: Option<seq<AcceptanceCriterion>>, document: Option<UserStoryDocument>,
                         linkRows: Option<seq<UserStoryLink>>)
      modifies this, editor, panel
      ensures editor.criteria == Map(if criteriaRows.Some? then criteriaRows.value else [], EntryOf)
      ensures panel.storyDocument == document
      ensures panel.links == (if linkRows.Some? then linkRows.value else [])
      ensures !loadingData
      ensures editor.newCriterion == old(editor.newCriterion) && panel.showAddLink == old(panel.showAddLink)
      ensures panel.newLinkUrl == old(panel.newLinkUrl) && panel.newLinkTitle == old(panel.newLinkTitle)
      ensures panel.newLinkType == old(panel.newLinkType)
    {
      loadingData := true;
      editor.Load(criteriaRows);
      panel.Load(document, linkRows);
      loadingData := false;
    }

    /** `handleAddLink`, for the dialog's story. */
    method AddLink(response: Response<UserStoryLink>) returns (insert: Option<LinkInsert>)
      modifies panel
      ensures insert == LinkInsertFor(form.userStory, old(panel.newLinkUrl), old(panel.newLinkTitle), old(panel.newLinkType))
      ensures insert.Some? && response.Data? ==>
        && panel.links == [response.row] + old(panel.links)
        && panel.newLinkUrl == "" && panel.newLinkTitle == "" && panel.newLinkType == External
        && !panel.showAddLink
      ensures insert.None? || response.Error? ==>
        && panel.links == old(panel.links) && panel.newLinkUrl == old(panel.newLinkUrl)
        && panel.newLinkTitle == old(panel.newLinkTitle) && panel.newLinkType == old(panel.newLinkType)
        && panel.showAddLink == old(panel.showAddLink)
      ensures panel.storyDocument == old(panel.storyDocument)
    {
      insert := panel.AddLink(form.userStory, response);
    }

    /** `handleSubmit`: the form's fields with the editor's criteria. */
    method Submit(saveSucceeded: bool) returns (sent: Option<(StoryData, seq<CriterionData>)>, closes: bool)
      modifies form
      ensures sent == Submission(old(form.title), old(form.description), old(form.priority), editor.criteria)
      ensures closes <==> sent.Some? && saveSucceeded
      ensures form.saving == (if sent.None? then old(form.saving) else false)
      ensures form.title == old(form.title) && form.description == old(form.description)
      ensures form.priority == old(form.priority) && form.userStory == old(form.userStory)
      ensures form.deleting == old(form.deleting) && form.showDeleteConfirm == old(form.showDeleteConfirm)
    {
      sent, closes := form.Submit(editor.criteria, saveSucceeded);
    }
  }
}
