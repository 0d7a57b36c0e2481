/** The document viewer: whether content is shown as HTML (as the rich-text editor stores it) or
    rendered as Markdown, and how the Markdown renderer classifies code, lists, list items and
    checkbox inputs. The rendering itself is not modelled. */
module MarkdownViewer {
  import opened JsText

  /** What the viewer renders: HTML inserted as it is, or Markdown source. */
  datatype Rendering = Html(markup: string) | Markdown(source: string)

  const EmptyHtml: string := "<p><em>Sin contenido</em></p>"
  const EmptyMarkdown: string := "*Sin contenido*"

  /** `content.startsWith('<')` picks the HTML branch, which shows `content || EmptyHtml`; every
      other content, the empty one included, is Markdown shown as `content || EmptyMarkdown`. */
  function View(content: string): (r: Rendering)
    ensures r.Html? <==> |content| > 0 && content[0] == '<'
    ensures r.Html? ==> r.markup == content
    ensures content == [] ==> r == Markdown(EmptyMarkdown)
    ensures content != [] && content[0] != '<' ==> r == Markdown(content)
  {
    if StartsWith(content, "<") then Html(if content != [] then content else EmptyHtml)
    else Markdown(if content != [] then content else EmptyMarkdown)
  }

  /** A word character of the pattern `\w`: an ASCII letter, digit or `_`. */
  predicate IsWordChar(c: char) {
    'a' <= c <= 'z' || 'A' <= c <= 'Z' || '0' <= c <= '9' || c == '_'
  }

  /** `/language-(\w+)/.exec(s)` finds a match: `language-` followed by a word character. */
  predicate HasLanguage(s: string) {
    exists i :: 0 <= i && i + 9 < |s| && OccursAt(s, "language-", i) && IsWordChar(s[i + 9])
  }

  /** `!match && !className`: a code element is inline when it has no class and no language. */
  predicate IsInlineCode(className: Option<string>) {
    !HasLanguage(OrEmpty(className)) && OrEmpty(className) == []
  }

  /** A code element is inline exactly when it has no class (absent or `''`): the language test
      never decides on its own, since a language needs a class. */
  lemma InlineIffNoClass(className: Option<string>)
    ensures IsInlineCode(className) <==> className.None? || className.value == []
    ensures HasLanguage(OrEmpty(className)) ==> !IsInlineCode(className)
  {
  }

  /** `className?.includes('contains-task-list')`: an absent class is not a task list. */
  predicate IsTaskList(className: Option<string>) {
    className.Some? && Includes(className.value, "contains-task-list")
  }

  /** `className?.includes('task-list-item')` */
  predicate IsTaskItem(className: Option<string>) {
    className.Some? && Includes(className.value, "task-list-item")
  }

  /** How the renderer lays out a list and a list item. */
  datatype ListStyle = TaskList | Bulleted
  datatype ItemStyle = TaskItem | PlainItem

  function ListStyleOf(className: Option<string>): (r: ListStyle)
    ensures r == TaskList <==> className.Some? && Includes(className.value, "contains-task-list")
  {
    if IsTaskList(className) then TaskList else Bulleted
  }

  function ItemStyleOf(className: Option<string>): (r: ItemStyle)
    ensures r == TaskItem <==> className.Some? && Includes(className.value, "task-list-item")
  {
    if IsTaskItem(className) then TaskItem else PlainItem
  }

  /** A list or item without a class is laid out as a plain one; one whose class is exactly its
      marker is laid out as a task list or task item. */
  lemma PlainWithoutMarker()
    ensures ListStyleOf(None) == Bulleted && ItemStyleOf(None) == PlainItem
    ensures ListStyleOf(Some("contains-task-list")) == TaskList
    ensures ItemStyleOf(Some("task-list-item")) == TaskItem
  {
    assert OccursAt("contains-task-list", "contains-task-list", 0);
    assert OccursAt("task-list-item", "task-list-item", 0);
  }

  /** The input element the renderer emits: its type, its checked state and whether it is read-only. */
  datatype InputElement = InputElement(kind: Option<string>, checked: Option<bool>, readOnly: bool)

  /** A checkbox keeps its checked state and is read-only; any other input keeps its type only. */
  function InputOf(kind: Option<string>, checked: Option<bool>): (r: InputElement)
    ensures r.kind == kind
    ensures r.readOnly <==> kind == Some("checkbox")
    ensures kind == Some("checkbox") ==> r.checked == checked
    ensures kind != Some("checkbox") ==> r.checked.None?
  {
    if kind == Some("checkbox") then InputElement(kind, checked, true)
    else InputElement(kind, None, false)
  }
}
