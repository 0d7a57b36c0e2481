# SlothFlow front end, modelled in Dafny

SlothFlow is an agile project tool: projects hold a Kanban board of tasks, user stories split into
subtasks, planning-poker sessions and project documents. Its front end is a set of Next.js pages and
React components over a Supabase database. This project models the logic of those pages and
components:

- the board and its columns: moving a task by drag and drop with an optimistic update that is
  reverted on failure, creating, editing and deleting a task, and the stats and velocity bar;
- the task, subtask and user-story dialogs: filling the form from a row, validating and trimming
  what is submitted, the acceptance-criteria editor and the story's links;
- the cards: badges, the estimation control offered to product managers, and opening a voting
  session;
- the user-story header: story-point rollup and override, progress, criteria count;
- the documents list, search and type filter; the document card's plain-text preview; the viewer's
  choice between HTML and Markdown; the document templates;
- the projects page, the profile page, the user menu and the reset-password page;
- the enumerations and lookup tables of the data model.

Every database or auth call is a parameter, and so is the clock: the time
`new Date().toISOString()` stamps on a write is the parameter `now`. A handler
is given the call's answer, a `Response` holding either the row or an error, or a flag saying whether the call succeeded. The model then
states what the component's state becomes and what it sent. Components that keep state in
`useState` become classes whose methods change the fields. Derived values and render decisions are
functions.

Modules: `JsText` holds the JavaScript string and number built-ins the code relies on. `Lists` holds
`filter`, `map` and `reduce` over sequences. `Types` holds the data model. There is then one module
per component or page.

## Model

| member | source | states |
|---|---|---|
| JsText.IsSpace | app/projects/page.tsx:70 | the characters `trim()` and `\s` treat as whitespace: the ECMAScript WhiteSpace and LineTerminator code points; see BlankIffAllSpace |
| JsText.TrimStart | app/projects/page.tsx:85 | what is left is a suffix of the text that does not start with whitespace; TrimStartDropsOnlySpace says all that was cut is whitespace |
| JsText.TrimEnd | app/projects/page.tsx:85 | what is left is a prefix of the text that does not end with whitespace; TrimEndDropsOnlySpace says all that was cut is whitespace |
| JsText.TrimEndDropsOnlySpace | app/projects/page.tsx:85 | everything cut from the end is whitespace |
| JsText.Blank | app/projects/page.tsx:70 | `!s.trim()`; BlankIffAllSpace says it holds exactly when every character is whitespace |
| JsText.Trim | app/projects/page.tsx:70 | `trim()` leaves no whitespace at either end |
| JsText.TrimIsPiece | app/projects/page.tsx:85 | the trimmed text is a contiguous piece of the original, starting where the leading whitespace ends |
| JsText.TrimCutsTrailingSpace | app/projects/page.tsx:85 | everything `trim()` cuts from the end is whitespace |
| JsText.TrimStartDropsOnlySpace | app/projects/page.tsx:85 | everything cut from the start is whitespace |
| JsText.BlankIffAllSpace | app/projects/page.tsx:70 | `!s.trim()` holds exactly when every character is whitespace |
| JsText.TrimOfTrimmed | app/projects/page.tsx:85 | trimming is idempotent on text without outer whitespace |
| JsText.TrimOrNull | app/projects/page.tsx:86 | `s.trim() \|\| null` is null exactly for blank text, and otherwise non-empty and trimmed |
| JsText.NullableTextRoundTrip | components/TaskModal.tsx:56 | loading a nullable text with `\|\| ''` and submitting it with `trim() \|\| null` gives it back exactly when it is null or non-empty and trimmed |
| JsText.NatToString | components/TaskModal.tsx:57 | `n.toString()` is a non-empty string of decimal digits without a leading zero |
| JsText.NatToStringValue | components/TaskModal.tsx:57 | the digits of `n.toString()` denote `n` |
| JsText.IntToString | components/TaskModal.tsx:57 | a negative number prints as `-` before the digits of its magnitude |
| JsText.Unsigned | components/TaskModal.tsx:79 | the text after the optional leading `-` or `+` that `parseInt` accepts; see ParseIntOfIntToString |
| JsText.Magnitude | components/TaskModal.tsx:79 | a `0x` prefix selects radix 16, then the longest digit run counts, none meaning NaN; see DigitRun and ParseIntOfNatToString |
| JsText.ParseInt | components/TaskModal.tsx:79 | `parseInt` without a radix; ParseIntOfBlank, ParseIntOfNatToString and ParseIntOfIntToString state what it gives |
| JsText.ParseIntOfBlank | components/TaskModal.tsx:79 | `parseInt` of blank text is NaN, modelled as null |
| JsText.ParseIntOfIntToString | components/TaskModal.tsx:79 | `parseInt(n.toString()) === n` for every integer |
| JsText.ParseIntOfNegativeToString | components/TaskModal.tsx:79 | `parseInt` of `-` followed by the digits of a positive number gives the negative number |
| JsText.ParseIntOfNatToString | components/TaskModal.tsx:79 | `parseInt(n.toString()) === n` for every non-negative integer |
| JsText.DigitRun | components/TaskModal.tsx:79 | `parseInt` reads the longest run of digits: the run is a prefix and the next character is no digit |
| JsText.NumberFieldText | components/TaskModal.tsx:57 | a number field shows `''` exactly for null points |
| JsText.NumberFieldValue | components/TaskModal.tsx:79 | `text ? parseInt(text) : null` submits null for blank text |
| JsText.NumberFieldRoundTrip | components/TaskModal.tsx:79 | showing points in the field and submitting it gives the same points back |
| JsText.OrElse | components/UserMenu.tsx:77 | `value \|\| fallback` is the text unless it is null or empty |
| JsText.OrEmpty | components/TaskModal.tsx:56 | `value \|\| ''` is the text, or empty for null |
| JsText.ToLower | components/documents/DocumentsList.tsx:62 | `toLowerCase` keeps the length and lowers each character |
| JsText.Includes | components/documents/DocumentsList.tsx:62 | `s.includes(part)`: the part occurs at some position; IncludesEmpty says every text includes `''` |
| JsText.StartsWith | components/documents/MarkdownViewer.tsx:14 | `s.startsWith(prefix)`: the prefix is the text's first characters; see MarkdownViewer.View |
| JsText.LowerChar | components/documents/DocumentsList.tsx:62 | ASCII capitals become small letters; every other character is kept |
| JsText.BeforeFirst | components/UserMenu.tsx:77 | `split('@')[0]` is the prefix before the first `@`, holding no `@` |
| JsText.LastIndexOf | components/SubtaskColumn.tsx:71 | the index found holds the character and none follows it; none found means the character is absent |
| JsText.RoundPercent | components/UserStorySection.tsx:49 | `Math.round(part / whole * 100)` is the nearest integer to the exact share, within 0..100 for a part of the whole |
| JsText.RoundPercentBounds | components/UserStorySection.tsx:49 | the rounding formula lies between 0 and 100 when the part is at most the whole |
| Lists.Filter | components/KanbanBoard.tsx:201 | `filter` keeps exactly the elements satisfying the predicate |
| Lists.FilterIsSubsequence | components/KanbanBoard.tsx:201 | `filter` keeps the kept elements in their original order |
| Lists.FilterConcat | app/projects/page.tsx:120 | filtering distributes over concatenation |
| Lists.FilterKeepsAll | app/projects/page.tsx:120 | a filter every element passes returns the list unchanged |
| Lists.FilterKeepsNone | app/projects/page.tsx:120 | a filter no element passes returns the empty list |
| Lists.FilterPartition3 | components/KanbanColumn.tsx:73 | three disjoint filters covering every element together hold each element exactly once |
| Lists.Count | components/KanbanBoard.tsx:214 | `filter(p).length` is at most the length of the list |
| Lists.SumOfFilterBounded | components/KanbanBoard.tsx:215-218 | with no negative terms, the sum over a filtered list lies between 0 and the whole sum |
| Lists.Sum | components/UserStorySection.tsx:43 | `reduce((sum, x) => sum + f(x), 0)`; SumConcat and SumOfFilterBounded state its laws |
| Lists.SumConcat | components/UserStorySection.tsx:43 | `reduce` sums add up over concatenation |
| Lists.Map | components/KanbanBoard.tsx:83 | `map` keeps the length |
| Lists.MapAt | components/KanbanBoard.tsx:83 | each position of a mapped list holds the image of the element there |
| Lists.MapUndo | components/KanbanBoard.tsx:114 | mapping with a function and then with its inverse gives the list back |
| Lists.SumOfMap | components/KanbanBoard.tsx:215 | a map that keeps every element's term keeps the sum |
| Lists.SubsequenceMembers | components/KanbanBoard.tsx:201 | every element of a subsequence comes from the whole |
| Types.StatusName | lib/types.ts:53 | the wire name of each status; ParseStatus and StatusNameRoundTrip read it back, StatusNameHasNoColon keeps `:` out |
| Types.ParseStatus | lib/types.ts:53 | a wire name denotes a status exactly when it is one of the three status names, and names that status |
| Types.StatusNameRoundTrip | lib/types.ts:53 | reading a status back from its name gives that status |
| Types.StatusNameHasNoColon | lib/types.ts:53 | no status name contains `:` |
| Types.PriorityName | lib/types.ts:14 | the wire name of each priority |
| Types.PriorityConfigOf | lib/types.ts:29-34 | the `USER_STORY_PRIORITIES` table with its literal entries; see PriorityCaptionsDistinct |
| Types.PriorityCaptionsDistinct | lib/types.ts:29-34 | no two priorities share a caption |
| Types.SubtaskTypeName | lib/types.ts:54 | the wire name of each subtask type |
| Types.SubtaskTypeConfigOf | lib/types.ts:70-77 | the `SUBTASK_TYPES` table with its literal entries; see SubtaskTypeCaptionsDistinct |
| Types.SubtaskTypeCaptionsDistinct | lib/types.ts:70-77 | no two subtask types share a caption |
| Types.RoleName | lib/types.ts:105 | the wire name of each role; see RoleLabelsTotal |
| Types.RoleLabelsTotal | lib/types.ts:79-82 | every role has an entry in `ROLE_LABELS` |
| Types.AvatarName | lib/types.ts:88 | the wire name of each avatar id; AvatarConfigOf names its image after it |
| Types.AvatarConfigOf | lib/types.ts:90-99 | the image listed for each avatar is the file named after its id, `/avatars/<id>.png` |
| Types.SlothDefaultImage | lib/types.ts:91 | the default sloth's image is the file named after its id |
| Types.SlothHappyImage | lib/types.ts:92 | the happy sloth's image is the file named after its id |
| Types.SlothSleepyImage | lib/types.ts:93 | the sleepy sloth's image is the file named after its id |
| Types.SlothCoolImage | lib/types.ts:94 | the cool sloth's image is the file named after its id |
| Types.SlothHeartImage | lib/types.ts:95 | the heart sloth's image is the file named after its id |
| Types.SlothStarImage | lib/types.ts:96 | the star sloth's image is the file named after its id |
| Types.SlothCoffeeImage | lib/types.ts:97 | the coffee sloth's image is the file named after its id |
| Types.SlothZenImage | lib/types.ts:98 | the zen sloth's image is the file named after its id |
| Types.SessionStatusName | lib/types.ts:122 | the wire name of each voting session status |
| Types.IdentifiesOneVoter | lib/types.ts:131-132 | a vote row has exactly one of a user id and a guest id; VoterOf reads the voter from such a row |
| Types.VoterOf | lib/types.ts:131-132 | a vote names a registered user exactly when its user id is set, and a guest otherwise |
| Types.DocumentTypeOrderComplete | lib/types.ts:162-193 | the `DOCUMENT_TYPES` order lists each of the five document types exactly once |
| Types.DocumentTypeName | lib/types.ts:149 | the wire name of each document type |
| Types.DocumentTypeConfigOf | lib/types.ts:162-193 | the `DOCUMENT_TYPES` table with its literal entries; see DocumentTypeCaptionsDistinct |
| Types.DocumentTypeCaptionsDistinct | lib/types.ts:162-193 | no two document types share a caption |
| Types.LinkTypeName | lib/types.ts:199 | the wire name of each link type |
| Types.LinkTypeConfigOf | lib/types.ts:226-232 | the `LINK_TYPES` table with its literal entries; see LinkTypeCaptionsDistinct |
| Types.LinkTypeCaptionsDistinct | lib/types.ts:226-232 | no two link types share a caption |
| KanbanBoard.SetStatusOf | components/KanbanBoard.tsx:84 | `task.id === taskId ? { ...task, status } : task`; see WithStatusChangesOnlyStatus |
| KanbanBoard.WithStatus | components/KanbanBoard.tsx:82-86 | the optimistic move over the whole list; see WithStatusChangesOnlyStatus and RevertRestores |
| KanbanBoard.WithStatusChangesOnlyStatus | components/KanbanBoard.tsx:82-86 | the optimistic move changes only the status of the tasks with the dragged id, keeping length and order |
| KanbanBoard.RevertRestores | components/KanbanBoard.tsx:113-117 | reverting a failed move restores the list when the dragged task was in the source column |
| KanbanBoard.ReplaceWith | components/KanbanBoard.tsx:146 | `t.id === id ? data : t`; see ReplaceByIdChangesOnlyThatTask |
| KanbanBoard.ReplaceById | components/KanbanBoard.tsx:146 | the saved row put in place of the edited task; see ReplaceByIdChangesOnlyThatTask |
| KanbanBoard.ReplaceByIdChangesOnlyThatTask | components/KanbanBoard.tsx:146 | a saved edit replaces only the tasks with that id, keeping length and order |
| KanbanBoard.IdIsNot | components/KanbanBoard.tsx:201 | `t.id !== id`; see RemoveByIdRemovesOnlyThatTask |
| KanbanBoard.RemoveById | components/KanbanBoard.tsx:201 | the list without the deleted task; see RemoveByIdRemovesOnlyThatTask |
| KanbanBoard.RemoveByIdRemovesOnlyThatTask | components/KanbanBoard.tsx:201 | a delete removes exactly the tasks with that id, keeps the others in order, and changes nothing when no task has it |
| KanbanBoard.PointsOrZero | components/KanbanBoard.tsx:215 | `t.story_points \|\| 0`: null points count 0; see CompletedPointsBounded |
| KanbanBoard.IsDone | components/KanbanBoard.tsx:214 | `t.status === 'done'`; see StatsOf |
| KanbanBoard.StatsOf | components/KanbanBoard.tsx:213-218 | the task count is the list's length and the completed count is at most that |
| KanbanBoard.CompletedPointsBounded | components/KanbanBoard.tsx:215-218 | with no negative points, completed points lie between 0 and the total |
| KanbanBoard.Velocity | components/KanbanBoard.tsx:285-291 | the velocity is shown exactly when there are points; it is `RoundPercent(completed, total)`, the rounded completed share, within 0..100 and 100 when every point is completed |
| KanbanBoard.DragKeepsTotals | components/KanbanBoard.tsx:82-86 | a move keeps the task count and the point total |
| KanbanBoard.FromColumns | components/KanbanBoard.tsx:78 | the board's droppable ids are status names, so the handler can read them as statuses; see KanbanColumn.ColumnDropsAreReadBack |
| KanbanBoard.MovesNothing | components/KanbanBoard.tsx:66-76 | a drop outside the columns or onto its own position; see Board.HandleDragEnd |
| KanbanBoard.StatusOr | components/KanbanBoard.tsx:165 | a new task takes the submitted status, else the column's default |
| KanbanBoard.InsertColumns | components/KanbanBoard.tsx:158-168 | an insert always writes a status: the submitted one or the column's |
| KanbanBoard.UpdateColumnsAsWritten | components/KanbanBoard.tsx:131-142 | the update as written: the submitted fields without the link, stamped `updated_at` with the time of the write; see EditAsWrittenLosesLink |
| KanbanBoard.UpdateColumns | components/KanbanBoard.tsx:131-142 | the update with the submitted link, stamped with the time of the write; see EditStoresSubmittedFields |
| KanbanBoard.InsertColumnsAsWritten | components/KanbanBoard.tsx:158-168 | the insert as written also always writes a status: the submitted one or the column's |
| KanbanBoard.Stored | components/KanbanBoard.tsx:131-142 | the row the store holds after a write: the written columns over the old row, an absent link or `updated_at` column keeping the old value; see EditStoresSubmittedFields and UntouchedEditKeepsTask |
| KanbanBoard.BlankRow | components/KanbanBoard.tsx:158-168 | a new row before the insert: the store's id and time, null in every nullable column; see CreateStoresSubmittedFields |
| KanbanBoard.EditStoresSubmittedFields | components/KanbanBoard.tsx:131-142 | saving an edit stores every submitted field, the link included, keeps id, project and creation time, and sets `updated_at` to the time of the write |
| KanbanBoard.CreateStoresSubmittedFields | components/KanbanBoard.tsx:158-168 | creating a task stores every submitted field, the link included, in this project |
| KanbanBoard.UntouchedEditKeepsTask | components/KanbanBoard.tsx:131-146 | opening a task and saving it untouched stores it unchanged apart from `updated_at`, which becomes the time of the write |
| KanbanBoard.EditAsWrittenLosesLink | components/KanbanBoard.tsx:133-139 | as written, a link typed into an existing task's dialog is not stored |
| KanbanBoard.CreateAsWrittenLosesLink | components/KanbanBoard.tsx:160-166 | as written, a link entered when creating a task is not stored |
| KanbanBoard.LinkFormSubmits | components/TaskModal.tsx:80 | a dialog filled with a link submits that link |
| KanbanBoard.Board.constructor | components/KanbanBoard.tsx:28-31 | the board starts with the given tasks, the dialog closed and the backlog as default column |
| KanbanBoard.Board.HandleTaskClick | components/KanbanBoard.tsx:48-51 | the dialog opens on the clicked task |
| KanbanBoard.Board.HandleAddTask | components/KanbanBoard.tsx:53-57 | the dialog opens empty and remembers the column it came from |
| KanbanBoard.Board.HandleCloseModal | components/KanbanBoard.tsx:59-62 | the dialog closes and forgets its task |
| KanbanBoard.Board.HandleDragEnd | components/KanbanBoard.tsx:64-123 | a drop outside the columns or onto its own position changes and writes nothing; otherwise the task moves, the status is written with the time of the write, and a failed write moves it back, which restores the list |
| KanbanBoard.Board.HandleSaveTask | components/KanbanBoard.tsx:125-184 | an edit updates the selected row, stamped with the time of the write, and replaces it in the list; a new task is inserted in this project, with the dialog's status or the column's, and appended; a failure leaves the list; both writes omit the link, as written |
| KanbanBoard.Board.HandleDeleteTask | components/KanbanBoard.tsx:186-210 | with a task selected its row is deleted and, on success, filtered out; a failure leaves the list |
| KanbanBoard.Board.Progress | components/KanbanBoard.tsx:213-218 | the stats bar counts every task on the board |
| KanbanColumn.StatusIs | components/KanbanColumn.tsx:73 | `task.status === status`; see ColumnTasks |
| KanbanColumn.ColumnTasks | components/KanbanColumn.tsx:73 | a column lists exactly the tasks of its status, in board order |
| KanbanColumn.ColumnsPartitionBoard | components/KanbanColumn.tsx:73 | the three columns together list every task exactly once |
| KanbanColumn.HasDocument | components/KanbanColumn.tsx:86 | a task has a document exactly when the map says so; a missing key means none |
| KanbanColumn.LinksCount | components/KanbanColumn.tsx:87 | a missing key counts 0 links |
| KanbanColumn.View | components/KanbanColumn.tsx:73-198 | the badge counts the cards; each card gets its task's document and link counts; the placeholder shows only when empty and not dragged over, the drop hint only when empty and dragged over; the droppable id names the status; add requests that status |
| KanbanColumn.ColumnDropsAreReadBack | components/KanbanColumn.tsx:198 | a drag between columns carries ids the board reads back as the two statuses |
| KanbanColumn.DraggedTaskLandsInColumn | components/KanbanBoard.tsx:82-86 | after a move the dragged task is listed in the destination column and in no other |
| SubtaskColumn.SubtaskStatusIs | components/SubtaskColumn.tsx:69 | `st.status === status`; see ColumnSubtasks |
| SubtaskColumn.ColumnSubtasks | components/SubtaskColumn.tsx:69 | a column lists exactly the subtasks of its status, in order |
| SubtaskColumn.DroppableId | components/SubtaskColumn.tsx:71 | `` `${userStoryId}:${status}` ``; see DroppableIdRoundTrip and DroppableIdInjective |
| SubtaskColumn.SplitDroppableId | components/SubtaskColumn.tsx:71 | the reading of a droppable id at its last `:`, used to state what the id carries; see DroppableIdRoundTrip |
| SubtaskColumn.DroppableIdRoundTrip | components/SubtaskColumn.tsx:71 | a `story:status` droppable id splits back into its story and status |
| SubtaskColumn.DroppableIdInjective | components/SubtaskColumn.tsx:71 | distinct story and status pairs get distinct droppable ids |
| SubtaskColumn.FindById | components/SubtaskColumn.tsx:75 | `find` returns the first member with the id, and none only when no member has it |
| SubtaskColumn.GetAssignee | components/SubtaskColumn.tsx:73-76 | no assignee for a null or empty id; otherwise the first team member with that id, none when nobody matches |
| SubtaskColumn.View | components/SubtaskColumn.tsx:69-151 | the badge counts the cards; each card gets its assignee; placeholder and drop hint as on the board; the droppable id splits back into story and status |
| TaskCard.NeedsEstimation | components/TaskCard.tsx:105 | null or zero points mean the task waits for an estimate; see BadgeOrEstimation |
| TaskCard.PointsBadge | components/TaskCard.tsx:172 | the points badge shows exactly for positive points |
| TaskCard.BadgeOrEstimation | components/TaskCard.tsx:105 | for points that are null or non-negative a card shows exactly one of the points badge and the estimation mark |
| TaskCard.Preview | components/TaskCard.tsx:106 | the description preview is the stripped description exactly when that is non-empty, and absent otherwise |
| TaskCard.View | components/TaskCard.tsx:105-245 | the card's badges follow the points, document and link count; only a product manager gets the estimation control, captioned for a first or a new estimate |
| TaskCard.ControlOnlyForPm | components/TaskCard.tsx:203-245 | the control shows only for the `pm` role and offers a first estimate exactly when the task needs one |
| TaskCard.SessionInsertFor | components/TaskCard.tsx:84-92 | a session row is inserted only for a signed-in user: for this task, created by that user, open for voting |
| TaskCard.VotingPath | components/TaskCard.tsx:96 | the voting page path names the project and ends with the session id |
| TaskCard.Card.constructor | components/TaskCard.tsx:61 | a card starts idle |
| TaskCard.Card.CreateVotingSession | components/TaskCard.tsx:72-103 | without a user the card asks to sign in; a failed insert is reported; a created session opens its voting page; the card ends idle |
| SubtaskCard.ControlCaption | components/SubtaskCard.tsx:187 | the button offers a first estimate exactly when the subtask needs one |
| SubtaskCard.Tooltip | components/SubtaskCard.tsx:161 | the assignee tooltip is the full name, else the email, else empty |
| SubtaskCard.SubtaskView | components/SubtaskCard.tsx:94-187 | the card shows its type's badge, the points badge or estimation mark, the assignee's avatar when assigned, and the control only for a product manager |
| SubtaskCard.SubtaskControlOnlyForPm | components/SubtaskCard.tsx:167-187 | the control shows only for the `pm` role and offers a first estimate exactly when the subtask needs one |
| SubtaskCard.SubtaskSessionInsertFor | components/SubtaskCard.tsx:73-82 | a session row is inserted only for a signed-in user: for this subtask, created by that user, open for voting |
| SubtaskCard.SubtaskCardState.constructor | components/SubtaskCard.tsx:50 | a card starts idle |
| SubtaskCard.SubtaskCardState.CreateVotingSession | components/SubtaskCard.tsx:61-92 | without a user the card asks to sign in; a failed insert is reported; a created session opens its voting page; the card ends idle |
| TaskModal.FormOf | components/TaskModal.tsx:53-68 | opening a task fills the fields from it (null texts as `''`); opening none clears them and selects the backlog |
| TaskModal.Payload | components/TaskModal.tsx:70-82 | a blank title submits nothing; otherwise the trimmed title, the description and link trimmed or null, the points as the number field reads them (null when blank) and the status |
| TaskModal.PayloadHasStatus | components/TaskModal.tsx:81 | every submitted task carries a status |
| TaskModal.LoadSubmitRoundTrip | components/TaskModal.tsx:53-82 | opening a task and submitting untouched hands back its own values |
| TaskModal.TaskForm.constructor | components/TaskModal.tsx:44-51 | the dialog starts empty and idle |
| TaskModal.TaskForm.Open | components/TaskModal.tsx:53-68 | the open effect writes the fields of the task, or clears them, and hides the delete confirmation |
| TaskModal.TaskForm.SetSaving | components/TaskModal.tsx:49 | only the saving flag changes |
| TaskModal.TaskForm.SetDeleting | components/TaskModal.tsx:50 | only the deleting flag changes |
| TaskModal.TaskForm.Submit | components/TaskModal.tsx:70-87 | the payload of the current fields is handed over; the dialog closes only after a successful save; saving ends false |
| TaskModal.TaskForm.Delete | components/TaskModal.tsx:89-99 | the delete handler runs only when given; the dialog closes only after it succeeds |
| SubtaskModal.AssigneeFieldText | components/SubtaskModal.tsx:65 | the selector shows the assignee, or `unassigned` when there is none |
| SubtaskModal.AssigneeValue | components/SubtaskModal.tsx:89 | `unassigned` submits null and any other choice submits itself |
| SubtaskModal.AssigneeRoundTrip | components/SubtaskModal.tsx:65-89 | an assignee survives opening and submitting exactly when it is null or a real id |
| SubtaskModal.FormOf | components/SubtaskModal.tsx:59-76 | opening a subtask fills the fields from it; a new one gets the column's status, type `other` and no assignee |
| SubtaskModal.Payload | components/SubtaskModal.tsx:78-91 | a blank title submits nothing; otherwise the trimmed fields, the assignee and the parsed points |
| SubtaskModal.LoadSubmitRoundTrip | components/SubtaskModal.tsx:59-91 | opening a subtask and submitting untouched hands back its own values |
| SubtaskModal.PayloadOfFields | components/SubtaskModal.tsx:84-91 | a form whose fields each submit the matching value submits exactly that data |
| SubtaskModal.NewSubtaskDefaults | components/SubtaskModal.tsx:68-73 | a new subtask with only a title lands in its column as type `other`, unassigned and unestimated |
| SubtaskModal.SubtaskForm.constructor | components/SubtaskModal.tsx:49-57 | the dialog starts empty and idle |
| SubtaskModal.SubtaskForm.Open | components/SubtaskModal.tsx:59-76 | the open effect writes the subtask's fields, or the defaults, and hides the delete confirmation |
| SubtaskModal.SubtaskForm.SetSaving | components/SubtaskModal.tsx:55 | only the saving flag changes |
| SubtaskModal.SubtaskForm.SetDeleting | components/SubtaskModal.tsx:56 | only the deleting flag changes |
| SubtaskModal.SubtaskForm.Submit | components/SubtaskModal.tsx:78-96 | the payload of the current fields is handed over; the dialog closes only after a successful save |
| SubtaskModal.SubtaskForm.Delete | components/SubtaskModal.tsx:98-108 | the delete handler runs only when given; the dialog closes only after it succeeds |
| UserStorySection.SubtaskPointsOrZero | components/UserStorySection.tsx:43 | `st.story_points \|\| 0`; see PointsTotalAppend |
| UserStorySection.SubtaskPointsTotal | components/UserStorySection.tsx:43 | the rollup of no subtasks is 0 |
| UserStorySection.PointsTotalAppend | components/UserStorySection.tsx:43 | adding a subtask adds its points to the rollup, or nothing when it has none |
| UserStorySection.DisplayPoints | components/UserStorySection.tsx:44 | the story's own points when it overrides the rollup, the rollup otherwise |
| UserStorySection.IsDoneSubtask | components/UserStorySection.tsx:48 | `st.status === 'done'`; see DoneSubtasks and AllDoneCounted |
| UserStorySection.DoneSubtasks | components/UserStorySection.tsx:48 | never more done subtasks than subtasks |
| UserStorySection.AllDoneCounted | components/UserStorySection.tsx:48 | when every subtask is done, all count as done |
| UserStorySection.ProgressPercent | components/UserStorySection.tsx:47-49 | 0 without subtasks, otherwise the rounded done share, within 0..100 and 100 when all are done |
| UserStorySection.CompletedCriteria | components/UserStorySection.tsx:53 | never more completed criteria than criteria |
| UserStorySection.Header | components/UserStorySection.tsx:40-157 | the header shows the priority's config, the points badge for positive points with the override mark, the criteria badge with `CompletedCriteria` only when there are criteria, `DoneSubtasks` as the done count and `ProgressPercent` as the progress, and the add button of an expanded empty story |
| UserStoryModal.AddCriterion | components/UserStoryModal.tsx:142-146 | a blank text adds nothing; otherwise one open criterion with the trimmed text is appended |
| UserStoryModal.RemoveAt | components/UserStoryModal.tsx:148-150 | removing never lengthens the list |
| UserStoryModal.RemoveAtDeletesOneEntry | components/UserStoryModal.tsx:149 | removing an index in range deletes exactly that entry; out of range nothing changes |
| UserStoryModal.ToggleAt | components/UserStoryModal.tsx:152-156 | toggling keeps the length |
| UserStoryModal.ToggleTwice | components/UserStoryModal.tsx:152-156 | toggling the same entry twice restores the list |
| UserStoryModal.CompletedCriteria | components/UserStoryModal.tsx:234 | never more completed criteria than criteria |
| UserStoryModal.ToggleChangesCompletedByOne | components/UserStoryModal.tsx:152-156 | toggling an entry changes the completed count by exactly one, up or down by its old state |
| UserStoryModal.LinkInsertFor | components/UserStoryModal.tsx:158-170 | no link is inserted without a story or with a blank URL; otherwise the trimmed URL, the title trimmed or null, and the type |
| UserStoryModal.LinkIdIsNot | components/UserStoryModal.tsx:195 | `l.id !== linkId`; see RemoveLink |
| UserStoryModal.RemoveLink | components/UserStoryModal.tsx:195 | exactly the other links remain, in order |
| UserStoryModal.CriteriaSent | components/UserStoryModal.tsx:214 | the criteria are sent in order, each without its id |
| UserStoryModal.Submission | components/UserStoryModal.tsx:202-215 | a blank title submits nothing; otherwise the trimmed title, the description trimmed or null, the priority and the criteria |
| UserStoryModal.CriteriaRoundTrip | components/UserStoryModal.tsx:112-116 | loaded criteria are sent back with their descriptions and states, in order |
| UserStoryModal.StorySubmitRoundTrip | components/UserStoryModal.tsx:82-215 | opening a story and submitting untouched hands back its fields and criteria |
| UserStoryModal.StoryForm.constructor | components/UserStoryModal.tsx:51-56 | the dialog starts empty with medium priority |
| UserStoryModal.StoryForm.Open | components/UserStoryModal.tsx:82-98 | the open effect writes the story's fields, or the defaults |
| UserStoryModal.StoryForm.SetSaving | components/UserStoryModal.tsx:54 | only the saving flag changes |
| UserStoryModal.StoryForm.SetDeleting | components/UserStoryModal.tsx:55 | only the deleting flag changes |
| UserStoryModal.StoryForm.Submit | components/UserStoryModal.tsx:202-220 | the submission of the current fields is handed over; the dialog closes only after a successful save; saving ends false; the fields, `deleting` and the delete confirmation stay |
| UserStoryModal.StoryForm.Delete | components/UserStoryModal.tsx:222-232 | the delete handler runs only when given; the dialog closes only after it succeeds; deleting ends false; the fields, `saving` and the delete confirmation stay |
| UserStoryModal.CriteriaEditor.constructor | components/UserStoryModal.tsx:59-60 | the editor starts empty |
| UserStoryModal.CriteriaEditor.Clear | components/UserStoryModal.tsx:93 | opening without a story empties the criteria |
| UserStoryModal.CriteriaEditor.Load | components/UserStoryModal.tsx:112-116 | the stored criteria are loaded in order with their ids; none loaded means an empty list |
| UserStoryModal.CriteriaEditor.Add | components/UserStoryModal.tsx:142-146 | the criterion is added and the input cleared, unless the input is blank |
| UserStoryModal.CriteriaEditor.Remove | components/UserStoryModal.tsx:148-150 | the entry at that index is removed |
| UserStoryModal.CriteriaEditor.Toggle | components/UserStoryModal.tsx:152-156 | the entry at that index flips its completed state |
| UserStoryModal.LinksPanel.constructor | components/UserStoryModal.tsx:63-71 | no document, no links, the add-link form hidden and empty |
| UserStoryModal.LinksPanel.Open | components/UserStoryModal.tsx:82-98 | the add-link form is hidden; without a story links and document are cleared |
| UserStoryModal.LinksPanel.Load | components/UserStoryModal.tsx:125-134 | the story's document and links are loaded, missing links counting as none; the add-link form and its three inputs stay |
| UserStoryModal.LinksPanel.AcceptLink | components/UserStoryModal.tsx:174-180 | the stored link goes first and the add-link form is reset and hidden |
| UserStoryModal.LinksPanel.AddLink | components/UserStoryModal.tsx:158-184 | the link row is inserted when allowed; on success it goes first and the form resets; otherwise nothing changes |
| UserStoryModal.LinksPanel.DeleteLink | components/UserStoryModal.tsx:186-200 | the link leaves the list only when the delete succeeded; the document, the add-link form and its three inputs stay |
| UserStoryModal.UserStoryDialog.constructor | components/UserStoryModal.tsx:51-71 | every field of the form, the editor and the panel starts at its initial value: empty texts, priority `medium`, the flags down, no criteria, links or document, link type `external`, not loading |
| UserStoryModal.UserStoryDialog.Open | components/UserStoryModal.tsx:82-98 | opening writes the story's fields or the defaults, hides the delete confirmation and the add-link form, and clears criteria, links and document without a story; the form flags, the criterion input and the link inputs stay |
| UserStoryModal.UserStoryDialog.LoadStoryData | components/UserStoryModal.tsx:100-140 | the story's criteria, document and links are loaded and loading ends; the criterion input, the add-link form and the link inputs stay |
| UserStoryModal.UserStoryDialog.AddLink | components/UserStoryModal.tsx:158-184 | the link row for the dialog's story is sent; on success it goes first and the add-link inputs reset and hide; otherwise links and inputs stay; the document stays |
| UserStoryModal.UserStoryDialog.Submit | components/UserStoryModal.tsx:202-220 | the form's fields are submitted with the editor's criteria; the dialog closes only after a successful save; saving ends false; the fields, `deleting` and the delete confirmation stay |
| DocumentsList.Matches | components/documents/DocumentsList.tsx:62-64 | `matchesSearch && matchesType`; see FilteredDocuments and EmptySearchShowsAll |
| DocumentsList.FilteredDocuments | components/documents/DocumentsList.tsx:61-65 | exactly the documents whose lowered title includes the lowered query and whose type passes the filter, in order |
| DocumentsList.EmptySearchShowsAll | components/documents/DocumentsList.tsx:61-65 | an empty search with the `all` filter shows every document |
| DocumentsList.TypeFilterShowsOnlyThatType | components/documents/DocumentsList.tsx:63 | a type filter shows only that type and never more than `all` |
| DocumentsList.CountIn | components/documents/DocumentsList.tsx:128 | a type missing from the tally counts 0 |
| DocumentsList.KindIs | components/documents/DocumentsList.tsx:68-71 | a document of the given type; see TypeCounts |
| DocumentsList.TypeCounts | components/documents/DocumentsList.tsx:68-71 | the tally gives each type the number of its documents and holds no zero entry |
| DocumentsList.TypeCountsSum | components/documents/DocumentsList.tsx:68-71 | the five per-type counts add up to the number of documents |
| DocumentsList.VisibleTypeBadges | components/documents/DocumentsList.tsx:126-129 | exactly the types with a non-zero count get a badge, in `DOCUMENT_TYPES` order |
| DocumentsList.BadgesOfDocuments | components/documents/DocumentsList.tsx:124-129 | every type present among the documents gets its badge, and the badges add up to the total |
| DocumentsList.EmptyStateOf | components/documents/DocumentsList.tsx:161-175 | the empty state offers to create a document exactly when no search or filter is active |
| DocumentsList.DocumentsPage.constructor | components/documents/DocumentsList.tsx:21-24 | the list starts with the given documents, loading exactly when none were given |
| DocumentsList.DocumentsPage.LoadOnMount | components/documents/DocumentsList.tsx:34-58 | documents are fetched only when none were given; the rows replace the list, a failure leaves it, and loading ends |
| DocumentCard.StripTags | components/documents/DocumentCard.tsx:21 | replacing tags by spaces never lengthens the text |
| DocumentCard.StripTagsChars | components/documents/DocumentCard.tsx:21 | stripping only adds spaces |
| DocumentCard.StripTagsLeavesNoTag | components/documents/DocumentCard.tsx:21 | no tag is left after stripping |
| DocumentCard.StripTagsOfPlainText | components/documents/DocumentCard.tsx:21 | text without `<` is left unchanged |
| DocumentCard.CollapseSpace | components/documents/DocumentCard.tsx:22 | collapsing whitespace never lengthens the text and keeps a non-space first character |
| DocumentCard.CollapseSpaceChars | components/documents/DocumentCard.tsx:22 | collapsing only adds spaces |
| DocumentCard.CollapseSpaceIsSingleSpaced | components/documents/DocumentCard.tsx:22 | after collapsing, no two whitespace characters are adjacent and only plain spaces remain |
| DocumentCard.CollapseSpaceKeepsNoTag | components/documents/DocumentCard.tsx:22 | collapsing cannot bring a tag back |
| DocumentCard.PlainText | components/documents/DocumentCard.tsx:20-23 | tags replaced by spaces, whitespace runs collapsed, then trimmed; see PlainTextIsClean |
| DocumentCard.PlainTextIsClean | components/documents/DocumentCard.tsx:20-23 | the plain text has no tag, no outer whitespace and single spaces only |
| DocumentCard.GetPreview | components/documents/DocumentCard.tsx:19-25 | the preview is the plain text, or its first 120 characters and `...` when longer; it is empty only when the plain text is |
| DocumentCard.PreviewHasNoTag | components/documents/DocumentCard.tsx:19-25 | the preview shows no tag |
| DocumentCard.ShownPreview | components/documents/DocumentCard.tsx:69 | the card shows the preview, or `Sin contenido` when it is empty |
| DocumentCard.MarkupOnlyShowsPlaceholder | components/documents/DocumentCard.tsx:69 | content of only tags and whitespace shows the placeholder |
| DocumentCard.TaskCountLabel | components/documents/DocumentCard.tsx:79-82 | the task count shows only when above zero, as `n tarea` with `s` unless it is one |
| DocumentCard.TaskCountPlural | components/documents/DocumentCard.tsx:82 | the label is plural exactly for more than one task |
| DocumentCard.TypeBarColor | components/documents/DocumentCard.tsx:43-50 | every document type has a bar colour |
| DocumentCard.DocumentPath | components/documents/DocumentCard.tsx:36 | the card links to the document's page in its project |
| MarkdownViewer.View | components/documents/MarkdownViewer.tsx:14-18 | content starting with `<` is inserted as HTML; anything else is Markdown, with a placeholder for empty content |
| MarkdownViewer.HasLanguage | components/documents/MarkdownViewer.tsx:38 | `/language-(\w+)/` matches the class; see InlineIffNoClass |
| MarkdownViewer.IsInlineCode | components/documents/MarkdownViewer.tsx:39 | `!match && !className`; see InlineIffNoClass |
| MarkdownViewer.IsTaskList | components/documents/MarkdownViewer.tsx:90 | `className?.includes('contains-task-list')`; see ListStyleOf and PlainWithoutMarker |
| MarkdownViewer.IsTaskItem | components/documents/MarkdownViewer.tsx:98 | `className?.includes('task-list-item')`; see ItemStyleOf and PlainWithoutMarker |
| MarkdownViewer.InlineIffNoClass | components/documents/MarkdownViewer.tsx:38-39 | a code element is inline exactly when it has no class |
| MarkdownViewer.ListStyleOf | components/documents/MarkdownViewer.tsx:88-98 | a list is a task list exactly when its class includes `contains-task-list` |
| MarkdownViewer.ItemStyleOf | components/documents/MarkdownViewer.tsx:98 | an item is a task item exactly when its class includes `task-list-item` |
| MarkdownViewer.PlainWithoutMarker | components/documents/MarkdownViewer.tsx:88-98 | a list or item without a class is plain, and one whose class is its marker is a task list or item |
| MarkdownViewer.InputOf | components/documents/MarkdownViewer.tsx:105-117 | a checkbox keeps its checked state and is read-only; any other input keeps only its type |
| DocumentTemplates.Stored | lib/document-templates.ts:3-172 | every stored template starts with an `<h1>` heading |
| DocumentTemplates.GetTemplateForType | lib/document-templates.ts:174-176 | each type gets its own template, which the viewer shows as HTML |
| DocumentTemplates.TemplateOpensWithTitle | lib/document-templates.ts:3-172 | each template opens with its type's title as heading |
| DocumentTemplates.UndatedTemplate | lib/document-templates.ts:3-172 | the templates other than meeting notes and retrospective do not depend on the date |
| DocumentTemplates.MeetingNotesShowDate | lib/document-templates.ts:89 | the meeting notes template shows the date |
| DocumentTemplates.RetrospectiveShowsDate | lib/document-templates.ts:121 | the retrospective template shows the date |
| ProjectsPage.InsertPayload | app/projects/page.tsx:84-87 | the project is inserted with the trimmed name, the description trimmed or null, and the user |
| ProjectsPage.PayloadIsClean | app/projects/page.tsx:70-87 | an accepted name gives a non-empty trimmed name and a clean description, and re-entering them gives the same row |
| ProjectsPage.IdIsNot | app/projects/page.tsx:120 | `p.id !== projectId`; see Without |
| ProjectsPage.Without | app/projects/page.tsx:120 | after a delete exactly the other projects remain, in order |
| ProjectsPage.DeleteUndoesCreate | app/projects/page.tsx:94-120 | deleting a project just created gives back the list it was added to |
| ProjectsPage.ProjectsPageState.constructor | app/projects/page.tsx:29-35 | the page starts with no projects, loading, and an empty closed form |
| ProjectsPage.ProjectsPageState.EnterProject | app/projects/page.tsx:29-35 | only the form's inputs change |
| ProjectsPage.ProjectsPageState.FetchProjects | app/projects/page.tsx:50-66 | the rows replace the list, no rows give an empty list, a failure leaves it; loading ends |
| ProjectsPage.ProjectsPageState.HandleCreateProject | app/projects/page.tsx:68-106 | a blank name does nothing; without a user nothing is inserted; a stored project goes first and the form closes and clears; creating ends false |
| ProjectsPage.ProjectsPageState.Created | app/projects/page.tsx:94-97 | the new project goes first, the dialog closes and the form clears |
| ProjectsPage.ProjectsPageState.HandleDeleteProject | app/projects/page.tsx:108-127 | a successful delete removes that project and keeps the others in order; a failure leaves the list; the delete mark clears |
| ProfilePage.AvatarOrDefault | app/profile/page.tsx:62 | a null avatar shows as the default sloth |
| ProfilePage.RoleLabel | app/profile/page.tsx:168 | `Product Manager` exactly for the `pm` role, `Developer` otherwise |
| ProfilePage.UpdateOf | app/profile/page.tsx:80-85 | the update sends the name trimmed, or null when blank, and the avatar chosen, for that profile |
| ProfilePage.Saved | app/profile/page.tsx:80-85 | the profile the update leaves in the database; see LoadAfterSave and SaveAfterLoad |
| ProfilePage.LoadAfterSave | app/profile/page.tsx:60-85 | loading a saved profile shows the trimmed name and the chosen avatar |
| ProfilePage.SaveAfterLoad | app/profile/page.tsx:60-85 | saving a just loaded profile stores its name back unchanged exactly when it is null or non-empty and trimmed |
| ProfilePage.ProfileForm.constructor | app/profile/page.tsx:23-27 | the page starts loading, with no profile and an empty form |
| ProfilePage.ProfileForm.Edit | app/profile/page.tsx:23-27 | only the name and avatar change |
| ProfilePage.ProfileForm.LoadProfile | app/profile/page.tsx:42-70 | without a user nothing is read; a returned profile fills the form; a failure leaves it; loading ends |
| ProfilePage.ProfileForm.HandleSave | app/profile/page.tsx:71-96 | nothing without a profile; otherwise the update of the current form is sent and saving ends |
| UserMenu.MenuAvatar | components/UserMenu.tsx:75-76 | the profile's avatar, else the default sloth |
| UserMenu.EmailName | components/UserMenu.tsx:77 | the email up to its first `@`, empty without an email |
| UserMenu.DisplayName | components/UserMenu.tsx:77 | the display name is never empty, and is the full name when there is one |
| UserMenu.DisplayNameWithoutFullName | components/UserMenu.tsx:77 | without a full name the email's part before `@`, else `Usuario`; it holds no `@` and starts the email |
| UserMenu.MenuRoleLabel | components/UserMenu.tsx:129 | `Product Manager` exactly for a `pm` profile, `Developer` otherwise and without a profile |
| UserMenu.UserMenuState.constructor | components/UserMenu.tsx:27-28 | no profile, loading |
| UserMenu.UserMenuState.LoadProfile | components/UserMenu.tsx:44-62 | without a user the profile stays; with one the query's answer becomes the profile; loading ends |
| ResetPassword.Validate | app/auth/reset-password/page.tsx:39-47 | entries that differ are a mismatch; matching ones are accepted exactly when at least 6 characters long |
| ResetPassword.VerdictMessage | app/auth/reset-password/page.tsx:39-47 | every rejected entry has a message and an accepted one has none |
| ResetPassword.FailureMessage | app/auth/reset-password/page.tsx:69-70 | a thrown error shows its message, anything else a generic one |
| ResetPassword.MismatchReportedFirst | app/auth/reset-password/page.tsx:39-47 | a short entry that does not match its confirmation is reported as a mismatch |
| ResetPassword.ResetPasswordPage.constructor | app/auth/reset-password/page.tsx:17-21 | empty entries, idle, no error, no success |
| ResetPassword.ResetPasswordPage.Enter | app/auth/reset-password/page.tsx:17-18 | only the two entries change |
| ResetPassword.ResetPasswordPage.CheckSession | app/auth/reset-password/page.tsx:24-34 | without a session the link is reported as expired |
| ResetPassword.ResetPasswordPage.HandleResetPassword | app/auth/reset-password/page.tsx:36-73 | a rejected entry shows its message and sends nothing; an accepted one is sent; success only when nothing was thrown, the thrown message otherwise; loading ends |

## Left out

- Network, database and auth calls are parameters: the handler is given the answer. Awaiting,
  interleaving of concurrent handlers and React's batching of state updates are not modelled;
  each handler runs as one step.
- Server-side ordering (`order('created_at', …)`, `order('updated_at', …)`) is not modelled: the
  rows arrive already ordered.
- Toasts, `alert`, `console.error`, router navigation, `setTimeout` and the redirect after a
  successful password reset are left out. The card's voting page is modelled as the path it opens.
- Rendering, CSS classes, icons and animations are left out, except where a render decision is a
  modelled function (badges, placeholders, controls).
- `stripMarkdown` is a parameter of the card views. react-markdown is modelled only through the
  decisions the viewer makes on class names and inputs.
- MarkdownEditor, the login page, the avatar selector and the voting pages are not part of this
  model.
- The subtask drag handler is not among the modelled files. `SubtaskColumn` models the droppable
  ids it would read.
- Logout in the user menu and the profile page's redirect to the login page are left out, apart from
  the fact that nothing is read without a user.
- `new Date().toLocaleDateString('es-ES')` and the card's `formatDate` are left out. The date is a
  parameter of the templates.
- KanbanBoard.Board.HandleDragEnd: requires the droppable ids to be status names, since the board's
  only droppables are its three columns.
- KanbanBoard.CompletedPointsBounded: requires non-negative story points. The forms' number inputs
  have `min=0`, but a stored negative value is not excluded.
- KanbanBoard.Velocity and JsText.RoundPercent: `Math.round` on a floating-point quotient is
  modelled on exact rationals. Floating-point error at a .5 boundary is not modelled.
- JsText.ToLower: only ASCII letters are lowered; non-ASCII case mapping is not modelled.
- JsText.ParseInt: NaN is modelled as null (JSON serialisation sends NaN as null). Integers are
  unbounded, so precision loss beyond 2^53 is not modelled.
- String lengths count code points, not UTF-16 code units: the 120-character preview cut and the
  6-character password minimum (`ResetPassword.Validate`, app/auth/reset-password/page.tsx:44) may
  differ for characters outside the Basic Multilingual Plane.

## Findings

| source | as written | input that shows it | evidently intended | confidence | as-written member | corrected member |
|---|---|---|---|---|---|---|
| components/KanbanBoard.tsx:133-139 | the update written on edit lists title, description, story points and status, but not `google_doc_link`, which the dialog submits (components/TaskModal.tsx:80) | a task without a link, edited with link `https://docs` | the link is stored with the other fields | not executed | KanbanBoard.EditAsWrittenLosesLink | KanbanBoard.EditStoresSubmittedFields |
| components/KanbanBoard.tsx:160-166 | the insert written on create omits `google_doc_link` in the same way | a new task with title `Spec` and link `https://docs` | the link is stored with the other fields | not executed | KanbanBoard.CreateAsWrittenLosesLink | KanbanBoard.CreateStoresSubmittedFields |

`KanbanBoard.Board.HandleSaveTask` writes the columns as the code stands (without the link); the
corrected columns appear only in the lemmas named in the last column.
