/** A document's card in the documents list: the plain-text preview of its HTML content, the fallback
    shown when that preview is empty, and the count of linked tasks. */
module DocumentCard {
  import opened JsText
  import opened Types

  /** No `<` is followed, anywhere later, by a `>`: nothing left that the tag pattern `<[^>]*>`
      would match. */
  predicate NoTag(s: string) {
    forall i, j :: 0 <= i < j < |s| && s[i] == '<' ==> s[j] != '>'
  }

  /** No two adjacent characters are both whitespace. */
  predicate NoDoubleSpace(s: string) {
    forall i :: 0 <= i < |s| - 1 ==> !(IsSpace(s[i]) && IsSpace(s[i + 1]))
  }

  /** No two adjacent whitespace characters, and the only whitespace is the plain space. */
  predicate SingleSpaced(s: string) {
    NoDoubleSpace(s) && forall c :: c in s && IsSpace(c) ==> c == ' '
  }

  /** `html.replace(/<[^>]*>/g, ' ')`: each `<`, up to the first `>` after it, becomes one space; a
      `<` with no `>` after it is kept. */
  function StripTags(s: string): (r: string)
    ensures |r| <= |s|
    decreases |s|
  {
    if s == [] then []
    else
      var before := BeforeFirst(s, '>');
      if s[0] == '<' && |before| < |s| then [' '] + StripTags(s[|before| + 1..])
      else [s[0]] + StripTags(s[1..])
  }

  /** Every character of the stripped text is a space or was already in the text. */
  lemma {:induction false} StripTagsChars(s: string)
    ensures forall c :: c in StripTags(s) ==> c in s || c == ' '
    decreases |s|
  {
    if s != [] {
      var before := BeforeFirst(s, '>');
      if s[0] == '<' && |before| < |s| {
        var rest := s[|before| + 1..];
        StripTagsChars(rest);
        SuffixMembers(s, |before| + 1);
      } else {
        StripTagsChars(s[1..]);
        SuffixMembers(s, 1);
      }
    }
  }

  /** Stripping leaves no tag: no `<` with a `>` after it. */
  lemma {:induction false} StripTagsLeavesNoTag(s: string)
    ensures NoTag(StripTags(s))
    decreases |s|
  {
    if s != [] {
      var before := BeforeFirst(s, '>');
      if s[0] == '<' && |before| < |s| {
        var rest := s[|before| + 1..];
        StripTagsLeavesNoTag(rest);
        ConsKeepsNoTag(' ', StripTags(rest));
      } else {
        StripTagsLeavesNoTag(s[1..]);
        if s[0] == '<' {
          assert before == s;
          assert '>' !in s[1..];
          StripTagsChars(s[1..]);
        }
        ConsKeepsNoTag(s[0], StripTags(s[1..]));
      }
    }
  }

  /** Text without tags has nothing for the tag pattern to replace. */
  lemma {:induction false} StripTagsOfPlainText(s: string)
    requires '<' !in s
    ensures StripTags(s) == s
    decreases |s|
  {
    if s != [] {
      assert s[0] != '<';
      assert '<' !in s[1..];
      StripTagsOfPlainText(s[1..]);
      assert s == [s[0]] + s[1..];
    }
  }

  /** `text.replace(/\s+/g, ' ')`: each run of whitespace becomes one space. */
  function CollapseSpace(s: string): (r: string)
    ensures |r| <= |s|
    ensures s != [] && !IsSpace(s[0]) ==> r != [] && r[0] == s[0]
    decreases |s|
  {
    if s == [] then []
    else if IsSpace(s[0]) then [' '] + CollapseSpace(TrimStart(s[1..]))
    else [s[0]] + CollapseSpace(s[1..])
  }

  /** Every character of the collapsed text is a space or was already in the text. */
  lemma {:induction false} CollapseSpaceChars(s: string)
    ensures forall c :: c in CollapseSpace(s) ==> c in s || c == ' '
    decreases |s|
  {
    if s != [] {
      if IsSpace(s[0]) {
        var t := TrimStart(s[1..]);
        CollapseSpaceChars(t);
        SuffixMembers(s[1..], |s| - 1 - |t|);
        SuffixMembers(s, 1);
      } else {
        CollapseSpaceChars(s[1..]);
        SuffixMembers(s, 1);
      }
    }
  }

  /** After collapsing, no two whitespace characters are adjacent, and the only whitespace left is the
      plain space. */
  lemma {:induction false} CollapseSpaceIsSingleSpaced(s: string)
    ensures SingleSpaced(CollapseSpace(s))
    decreases |s|
  {
    if s != [] {
      if IsSpace(s[0]) {
        var t := TrimStart(s[1..]);
        CollapseSpaceIsSingleSpaced(t);
        ConsKeepsSingleSpaced(' ', CollapseSpace(t));
      } else {
        CollapseSpaceIsSingleSpaced(s[1..]);
        ConsKeepsSingleSpaced(s[0], CollapseSpace(s[1..]));
      }
    }
  }

  /** Collapsing whitespace cannot bring a tag back. */
  lemma {:induction false} CollapseSpaceKeepsNoTag(s: string)
    requires NoTag(s)
    ensures NoTag(CollapseSpace(s))
    decreases |s|
  {
    if s != [] {
      if IsSpace(s[0]) {
        var t := TrimStart(s[1..]);
        SuffixKeepsNoTag(s, |s| - |t|);
        CollapseSpaceKeepsNoTag(t);
        ConsKeepsNoTag(' ', CollapseSpace(t));
      } else {
        SuffixKeepsNoTag(s, 1);
        CollapseSpaceKeepsNoTag(s[1..]);
        if s[0] == '<' {
          assert forall j :: 1 <= j < |s| ==> s[j] != '>';
          assert '>' !in s[1..];
          CollapseSpaceChars(s[1..]);
        }
        ConsKeepsNoTag(s[0], CollapseSpace(s[1..]));
      }
    }
  }

  /** `html.replace(/<[^>]*>/g, ' ').replace(/\s+/g, ' ').trim()` */
  function PlainText(html: string): string {
    Trim(CollapseSpace(StripTags(html)))
  }

  /** The plain text has no tag, no whitespace at either end and no two whitespace characters in a
      row; its only whitespace is the plain space. */
  lemma PlainTextIsClean(html: string)
    ensures var t := PlainText(html); NoTag(t) && Trimmed(t) && SingleSpaced(t)
  {
    StripTagsLeavesNoTag(html);
    CollapseSpaceKeepsNoTag(StripTags(html));
    CollapseSpaceIsSingleSpaced(StripTags(html));
    TrimKeepsClean(CollapseSpace(StripTags(html)));
  }

  /** Trimming keeps a piece of the text, so it keeps both properties. */
  lemma TrimKeepsClean(s: string)
    requires NoTag(s) && SingleSpaced(s)
    ensures NoTag(Trim(s)) && SingleSpaced(Trim(s))
  {
    TrimIsPiece(s);
    PieceKeepsClean(s, Trim(s), |s| - |TrimStart(s)|);
  }

  /** The longest plain text shown unabridged. */
  const PreviewLength: nat := 120

  /** `getPreview`: the plain text, cut to its first 120 characters followed by `...` when longer. */
  function GetPreview(html: string): (r: string)
    ensures var t := PlainText(html);
      && (|t| <= PreviewLength ==> r == t)
      && (|t| > PreviewLength ==> r == t[..PreviewLength] + "..." && |r| == PreviewLength + 3)
    ensures |r| <= PreviewLength + 3
    ensures r == [] <==> PlainText(html) == []
  {
    var t := PlainText(html);
    if |t| > PreviewLength then t[..PreviewLength] + "..." else t
  }

  /** The preview shows no tag either: cutting the plain text and appending `...` cannot make one. */
  lemma PreviewHasNoTag(html: string)
    ensures NoTag(GetPreview(html))
  {
    var t := PlainText(html);
    PlainTextIsClean(html);
    if |t| > PreviewLength {
      SliceKeepsClean(t, 0, PreviewLength);
      AppendEllipsisKeepsNoTag(t[..PreviewLength]);
    }
  }

  const EmptyPreview: string := "Sin contenido"

  /** `getPreview(document.content) || 'Sin contenido'`: the preview, or the placeholder when the
      content has no visible text. */
  function ShownPreview(content: string): (r: string)
    ensures r != []
    ensures PlainText(content) == [] ==> r == EmptyPreview
    ensures PlainText(content) != [] ==> r == GetPreview(content)
  {
    var p := GetPreview(content);
    if p == [] then EmptyPreview else p
  }

  /** Content made only of tags and whitespace shows the placeholder. */
  lemma {:induction false} MarkupOnlyShowsPlaceholder(content: string)
    requires forall c :: c in StripTags(content) ==> IsSpace(c)
    ensures ShownPreview(content) == EmptyPreview
  {
    var s := StripTags(content);
    CollapseSpaceIsSingleSpaced(s);
    CollapseSpaceChars(s);
    var u := CollapseSpace(s);
    assert forall c :: c in u ==> IsSpace(c);
    AllSpaceIsBlank(u);
  }

  /** `${task_count} tarea` plus `s` unless the count is one; shown only for a count above zero. */
  function TaskCountLabel(taskCount: Option<int>): (r: Option<string>)
    ensures r.Some? <==> taskCount.Some? && taskCount.value > 0
    ensures r.Some? ==> r.value == NatToString(taskCount.value) + " tarea" + (if taskCount.value == 1 then "" else "s")
  {
    if taskCount.Some? && taskCount.value > 0 then
      Some(IntToString(taskCount.value) + " tarea" + (if taskCount.value != 1 then "s" else ""))
    else None
  }

  /** The label ends in the plural `tareas` exactly when more than one task is linked. */
  lemma TaskCountPlural(n: int)
    requires n > 0
    ensures var r := TaskCountLabel(Some(n)).value; (r[|r| - 1] == 's' <==> n > 1)
  {
  }

  /** The colour of the bar across the card's top. */
  function TypeBarColor(kind: DocumentType): (r: string)
    ensures r != []
  {
    match kind
    case Prd => "bg-blue-400"
    case Spec => "bg-purple-400"
    case MeetingNotes => "bg-amber-400"
    case Retrospective => "bg-moss-400"
    case General => "bg-slate-400"
  }

  /** `/projects/${projectId}/documents/${document.id}`: the page the card links to. */
  function DocumentPath(projectId: string, documentId: string): (r: string)
    ensures StartsWith(r, "/projects/" + projectId + "/documents/")
    ensures |r| == 21 + |projectId| + |documentId| && r[21 + |projectId|..] == documentId
  {
    var prefix := "/projects/" + projectId + "/documents/";
    assert (prefix + documentId)[..|prefix|] == prefix;
    assert (prefix + documentId)[|prefix|..] == documentId;
    prefix + documentId
  }

  // ---------------------------------------------------------------------------------------------
  // Helpers on the two predicates
  // ---------------------------------------------------------------------------------------------

  lemma SuffixMembers(s: string, k: nat)
    requires k <= |s|
    ensures forall c :: c in s[k..] ==> c in s
  {
    forall c | c in s[k..]
      ensures c in s
    {
      var i :| 0 <= i < |s[k..]| && s[k..][i] == c;
      assert s[k + i] == c;
    }
  }

  lemma ConsKeepsNoTag(c: char, t: string)
    requires NoTag(t)
    requires c == '<' ==> '>' !in t
    ensures NoTag([c] + t)
  {
    var s := [c] + t;
    forall i, j | 0 <= i < j < |s| && s[i] == '<'
      ensures s[j] != '>'
    {
      assert s[j] == t[j - 1];
      if i > 0 {
        assert s[i] == t[i - 1];
      }
    }
  }

  lemma ConsKeepsSingleSpaced(c: char, t: string)
    requires SingleSpaced(t)
    requires IsSpace(c) ==> c == ' ' && (t == [] || !IsSpace(t[0]))
    ensures SingleSpaced([c] + t)
  {
    var s := [c] + t;
    forall i | 0 <= i < |s| - 1
      ensures !(IsSpace(s[i]) && IsSpace(s[i + 1]))
    {
      assert s[i + 1] == t[i];
      if i > 0 {
        assert s[i] == t[i - 1];
      }
    }
    forall x | x in s && IsSpace(x)
      ensures x == ' '
    {
      var i :| 0 <= i < |s| && s[i] == x;
      if i > 0 {
        assert s[i] == t[i - 1];
      }
    }
  }

  lemma PieceKeepsClean(s: string, t: string, k: nat)
    requires k + |t| <= |s| && s[k..k + |t|] == t
    requires NoTag(s) && SingleSpaced(s)
    ensures NoTag(t) && SingleSpaced(t)
  {
    SliceKeepsClean(s, k, k + |t|);
  }

  lemma AppendEllipsisKeepsNoTag(t: string)
    requires NoTag(t)
    ensures NoTag(t + "...")
  {
    var s := t + "...";
    forall i, j | 0 <= i < j < |s| && s[i] == '<'
      ensures s[j] != '>'
    {
      assert i < |t| && s[i] == t[i];
      if j < |t| {
        assert s[j] == t[j];
      }
    }
  }

  lemma SuffixKeepsNoTag(s: string, k: nat)
    requires k <= |s| && NoTag(s)
    ensures NoTag(s[k..])
  {
    var t := s[k..];
    forall i, j | 0 <= i < j < |t| && t[i] == '<'
      ensures t[j] != '>'
    {
      assert t[i] == s[k + i] && t[j] == s[k + j];
    }
  }

  lemma SliceKeepsClean(s: string, a: nat, b: nat)
    requires a <= b <= |s|
    requires NoTag(s) && SingleSpaced(s)
    ensures NoTag(s[a..b]) && SingleSpaced(s[a..b])
  {
    var t := s[a..b];
    forall i, j | 0 <= i < j < |t| && t[i] == '<'
      ensures t[j] != '>'
    {
      assert t[i] == s[a + i] && t[j] == s[a + j];
    }
    forall i | 0 <= i < |t| - 1
      ensures !(IsSpace(t[i]) && IsSpace(t[i + 1]))
    {
      assert t[i] == s[a + i] && t[i + 1] == s[a + i + 1];
    }
    forall c | c in t && IsSpace(c)
      ensures c == ' '
    {
      var i :| 0 <= i < |t| && t[i] == c;
      assert s[a + i] == c;
    }
  }

  lemma AllSpaceIsBlank(u: string)
    requires forall c :: c in u ==> IsSpace(c)
    ensures Trim(u) == []
  {
  }
}
