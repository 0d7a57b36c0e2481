/** The starting content of a new document of each type, and the lookup that picks it. Each template is
    held line by line, in the order of its text, the first line being its `<h1>` heading; the
    meeting-notes and retrospective templates embed the date of the day the table was built, which
    is a parameter here. */
module DocumentTemplates {
  import opened JsText
  import opened Types
  import MarkdownViewer

  /** The text of the heading each template opens with. */
  function Title(t: DocumentType): string {
    match t
    case Prd => "Product Requirements Document"
    case Spec => "Technical Specification"
    case MeetingNotes => "Meeting Notes"
    case Retrospective => "Sprint Retrospective"
    case General => "Documento"
  }

  /** Line `i` of the PRD template, after its heading. */
  function PrdLine(i: nat): string {
    match i
    case 1 => "\n"
    case 2 => "<h2>Objetivo</h2>\n"
    case 3 => "<p>[Describe el objetivo del producto/feature]</p>\n"
    case 4 => "\n"
    case 5 => "<h2>Contexto</h2>\n"
    case 6 => "<p>[Contexto del problema que resolvemos]</p>\n"
    case 7 => "\n"
    case 8 => "<h2>Requisitos Funcionales</h2>\n"
    case 9 => "<ul data-type=\"taskList\">\n"
    case 10 => "  <li data-type=\"taskItem\" data-checked=\"false\">Requisito 1</li>\n"
    case 11 => "  <li data-type=\"taskItem\" data-checked=\"false\">Requisito 2</li>\n"
    case 12 => "  <li data-type=\"taskItem\" data-checked=\"false\">Requisito 3</li>\n"
    case 13 => "</ul>\n"
    case 14 => "\n"
    case 15 => "<h2>Requisitos No Funcionales</h2>\n"
    case 16 => "<ul>\n"
    case 17 => "  <li><strong>Performance</strong>: [Criterios de performance]</li>\n"
    case 18 => "  <li><strong>Seguridad</strong>: [Requerimientos de seguridad]</li>\n"
    case 19 => "  <li><strong>Escalabilidad</strong>: [Necesidades de escalabilidad]</li>\n"
    case 20 => "</ul>\n"
    case 21 => "\n"
    case 22 => "<h2>Out of Scope</h2>\n"
    case 23 => "<p>[Lo que NO se incluye en este release]</p>\n"
    case 24 => "\n"
    case 25 => "<h2>Timeline</h2>\n"
    case 26 => "<ul>\n"
    case 27 => "  <li>Inicio: [Fecha]</li>\n"
    case 28 => "  <li>Beta: [Fecha]</li>\n"
    case 29 => "  <li>Launch: [Fecha]</li>\n"
    case 30 => "</ul>\n"
    case 31 => "\n"
    case 32 => "<h2>Métricas de Éxito</h2>\n"
    case 33 => "<p>[Cómo mediremos el éxito]</p>\n"
    case _ => ""
  }

  /** Line `i` of the technical-specification template, after its heading. */
  function SpecLine(i: nat): string {
    match i
    case 1 => "\n"
    case 2 => "<h2>Overview</h2>\n"
    case 3 => "<p>[Resumen técnico de la implementación]</p>\n"
    case 4 => "\n"
    case 5 => "<h2>Architecture</h2>\n"
    case 6 => "<p>[Descripción de la arquitectura]</p>\n"
    case 7 => "\n"
    case 8 => "<pre><code class=\"language-typescript\">// Diagrama o pseudocódigo\n"
    case 9 => "interface Example {\n"
    case 10 => "  id: string\n"
    case 11 => "  name: string\n"
    case 12 => "}\n"
    case 13 => "</code></pre>\n"
    case 14 => "\n"
    case 15 => "<h2>API Endpoints</h2>\n"
    case 16 => "\n"
    case 17 => "<h3>Endpoint 1</h3>\n"
    case 18 => "<pre><code class=\"language-typescript\">GET /api/endpoint\n"
    case 19 => "Response: { data: [...] }\n"
    case 20 => "</code></pre>\n"
    case 21 => "\n"
    case 22 => "<h2>Database Schema</h2>\n"
    case 23 => "<pre><code class=\"language-sql\">CREATE TABLE example (\n"
    case 24 => "  id UUID PRIMARY KEY DEFAULT gen_random_uuid(),\n"
    case 25 => "  name TEXT NOT NULL,\n"
    case 26 => "  created_at TIMESTAMPTZ DEFAULT NOW()\n"
    case 27 => ");\n"
    case 28 => "</code></pre>\n"
    case 29 => "\n"
    case 30 => "<h2>Dependencies</h2>\n"
    case 31 => "<ul>\n"
    case 32 => "  <li>Librería 1 - v1.0.0</li>\n"
    case 33 => "  <li>Librería 2 - v2.0.0</li>\n"
    case 34 => "</ul>\n"
    case 35 => "\n"
    case 36 => "<h2>Implementation Plan</h2>\n"
    case 37 => "<ul data-type=\"taskList\">\n"
    case 38 => "  <li data-type=\"taskItem\" data-checked=\"false\">Step 1</li>\n"
    case 39 => "  <li data-type=\"taskItem\" data-checked=\"false\">Step 2</li>\n"
    case 40 => "  <li data-type=\"taskItem\" data-checked=\"false\">Step 3</li>\n"
    case 41 => "</ul>\n"
    case 42 => "\n"
    case 43 => "<h2>Testing Strategy</h2>\n"
    case 44 => "<p>[Estrategia de testing]</p>\n"
    case _ => ""
  }

  /** Line `i` of the meeting-notes template, dated `date`, after its heading. */
  function MeetingNotesLine(date: string, i: nat): string {
    match i
    case 1 => "\n"
    case 2 => "<p><strong>Fecha:</strong> " + date + "<br/>\n"
    case 3 => "<strong>Tipo:</strong> [Planning / Retro / Daily]</p>\n"
    case 4 => "\n"
    case 5 => "<h2>Participantes</h2>\n"
    case 6 => "<ul>\n"
    case 7 => "  <li>Persona 1</li>\n"
    case 8 => "  <li>Persona 2</li>\n"
    case 9 => "</ul>\n"
    case 10 => "\n"
    case 11 => "<h2>Agenda</h2>\n"
    case 12 => "<ol>\n"
    case 13 => "  <li>Tema 1</li>\n"
    case 14 => "  <li>Tema 2</li>\n"
    case 15 => "  <li>Tema 3</li>\n"
    case 16 => "</ol>\n"
    case 17 => "\n"
    case 18 => "<h2>Notas</h2>\n"
    case 19 => "<p>[Notas de la reunión]</p>\n"
    case 20 => "\n"
    case 21 => "<h2>Action Items</h2>\n"
    case 22 => "<ul data-type=\"taskList\">\n"
    case 23 => "  <li data-type=\"taskItem\" data-checked=\"false\">@persona: Tarea 1</li>\n"
    case 24 => "  <li data-type=\"taskItem\" data-checked=\"false\">@persona: Tarea 2</li>\n"
    case 25 => "</ul>\n"
    case 26 => "\n"
    case 27 => "<h2>Próxima Reunión</h2>\n"
    case 28 => "<p>[Fecha y temas]</p>\n"
    case _ => ""
  }

  /** Line `i` of the retrospective template, dated `date`, after its heading. */
  function RetrospectiveLine(date: string, i: nat): string {
    match i
    case 1 => "\n"
    case 2 => "<p><strong>Sprint:</strong> [Número/Nombre]<br/>\n"
    case 3 => "<strong>Fecha:</strong> " + date + "</p>\n"
    case 4 => "\n"
    case 5 => "<h2>What Went Well</h2>\n"
    case 6 => "<ul>\n"
    case 7 => "  <li>Item 1</li>\n"
    case 8 => "  <li>Item 2</li>\n"
    case 9 => "</ul>\n"
    case 10 => "\n"
    case 11 => "<h2>What Didn't Go Well</h2>\n"
    case 12 => "<ul>\n"
    case 13 => "  <li>Item 1</li>\n"
    case 14 => "  <li>Item 2</li>\n"
    case 15 => "</ul>\n"
    case 16 => "\n"
    case 17 => "<h2>Ideas / Improvements</h2>\n"
    case 18 => "<ul>\n"
    case 19 => "  <li>Idea 1</li>\n"
    case 20 => "  <li>Idea 2</li>\n"
    case 21 => "</ul>\n"
    case 22 => "\n"
    case 23 => "<h2>Action Items</h2>\n"
    case 24 => "<ul data-type=\"taskList\">\n"
    case 25 => "  <li data-type=\"taskItem\" data-checked=\"false\">Acción 1</li>\n"
    case 26 => "  <li data-type=\"taskItem\" data-checked=\"false\">Acción 2</li>\n"
    case 27 => "</ul>\n"
    case 28 => "\n"
    case 29 => "<h2>Metrics</h2>\n"
    case 30 => "<table>\n"
    case 31 => "  <tr>\n"
    case 32 => "    <th>Métrica</th>\n"
    case 33 => "    <th>Valor</th>\n"
    case 34 => "  </tr>\n"
    case 35 => "  <tr>\n"
    case 36 => "    <td>Velocity</td>\n"
    case 37 => "    <td>[SP]</td>\n"
    case 38 => "  </tr>\n"
    case 39 => "  <tr>\n"
    case 40 => "    <td>Completed</td>\n"
    case 41 => "    <td>[X tasks]</td>\n"
    case 42 => "  </tr>\n"
    case 43 => "  <tr>\n"
    case 44 => "    <td>Bugs</td>\n"
    case 45 => "    <td>[Y]</td>\n"
    case 46 => "  </tr>\n"
    case 47 => "</table>\n"
    case _ => ""
  }

  /** Line `i` of the general template, after its heading. */
  function GeneralLine(i: nat): string {
    match i
    case 1 => "\n"
    case 2 => "<p>Comienza a escribir aquí...</p>\n"
    case _ => ""
  }

  /** How many lines the template of each type has, its heading included. */
  function LineCount(t: DocumentType): nat {
    match t
    case Prd => 34
    case Spec => 45
    case MeetingNotes => 29
    case Retrospective => 48
    case General => 3
  }

  /** Line `i` of the template of type `t`: its heading first. */
  function Line(t: DocumentType, date: string, i: nat): string {
    if i == 0 then "<h1>" + Title(t) + "</h1>\n"
    else
      match t
      case Prd => PrdLine(i)
      case Spec => SpecLine(i)
      case MeetingNotes => MeetingNotesLine(date, i)
      case Retrospective => RetrospectiveLine(date, i)
      case General => GeneralLine(i)
  }

  /** The lines `line(i)`, `line(i + 1)`, ... up to line `count - 1`, one after the other. */
  function Joined(line: nat -> string, count: nat, i: nat): string
    decreases count - i
  {
    if i >= count then "" else line(i) + Joined(line, count, i + 1)
  }

  /** The lines of the template of type `t`. */
  function LinesOf(t: DocumentType, date: string): nat -> string {
    (i: nat) => Line(t, date, i)
  }

  /** `DOCUMENT_TEMPLATES[t]`, built on the day whose `toLocaleDateString('es-ES')` is `date`: every
      type has an entry, and it opens with a top-level heading. */
  function Stored(t: DocumentType, date: string): (r: string)
    ensures StartsWith(r, "<h1>")
  {
    PrefixOfConcat("<h1>", Title(t) + "</h1>\n", 4);
    assert "<h1>" + Title(t) + "</h1>\n" == "<h1>" + (Title(t) + "</h1>\n");
    PrefixOfConcat(Line(t, date, 0), Joined(LinesOf(t, date), LineCount(t), 1), 4);
    Joined(LinesOf(t, date), LineCount(t), 0)
  }

  /** `getTemplateForType`: the stored template of the type, falling back to the general one when that
      is empty. Every stored template opens with `<h1>`, so it is not empty and the fallback is never
      taken; and the viewer shows it as HTML. */
  function GetTemplateForType(t: DocumentType, date: string): (r: string)
    ensures r == Stored(t, date)
    ensures StartsWith(r, "<h1>")
    ensures MarkdownViewer.View(r) == MarkdownViewer.Html(r)
  {
    var stored := Stored(t, date);
    if stored != [] then stored else Stored(General, date)
  }

  /** Every template opens with its own heading, `<h1>` and the type's title. */
  lemma TemplateOpensWithTitle(t: DocumentType, date: string)
    ensures StartsWith(GetTemplateForType(t, date), "<h1>" + Title(t) + "</h1>\n")
  {
    var h := Line(t, date, 0);
    PrefixOfConcat(h, Joined(LinesOf(t, date), LineCount(t), 1), |h|);
  }

  /** The templates of the types without a date line are the same whatever the date. */
  lemma UndatedTemplate(t: DocumentType, date1: string, date2: string)
    requires t != MeetingNotes && t != Retrospective
    ensures GetTemplateForType(t, date1) == GetTemplateForType(t, date2)
  {
    SameLinesJoined(LinesOf(t, date1), LinesOf(t, date2), LineCount(t), 0);
  }

  /** The meeting-notes template shows the date it was built on. */
  lemma MeetingNotesShowDate(date: string)
    ensures Includes(GetTemplateForType(MeetingNotes, date), date)
  {
    DateLineShowsDate("<p><strong>Fecha:</strong> ", date, "<br/>\n");
    LineIncluded(LinesOf(MeetingNotes, date), LineCount(MeetingNotes), 0, 2);
    IncludesTransitive(GetTemplateForType(MeetingNotes, date), Line(MeetingNotes, date, 2), date);
  }

  /** The retrospective template shows the date it was built on. */
  lemma RetrospectiveShowsDate(date: string)
    ensures Includes(GetTemplateForType(Retrospective, date), date)
  {
    DateLineShowsDate("<strong>Fecha:</strong> ", date, "</p>\n");
    LineIncluded(LinesOf(Retrospective, date), LineCount(Retrospective), 0, 3);
    IncludesTransitive(GetTemplateForType(Retrospective, date), Line(Retrospective, date, 3), date);
  }

  /** Joining the same lines gives the same text. */
  lemma {:induction false} SameLinesJoined(f: nat -> string, g: nat -> string, count: nat, i: nat)
    requires forall j :: f(j) == g(j)
    ensures Joined(f, count, i) == Joined(g, count, i)
    decreases count - i
  {
    if i < count {
      SameLinesJoined(f, g, count, i + 1);
    }
  }

  /** Every line from `i` on occurs in the text joined from line `i` on. */
  lemma {:induction false} LineIncluded(line: nat -> string, count: nat, i: nat, k: nat)
    requires i <= k < count
    ensures Includes(Joined(line, count, i), line(k))
    decreases k - i
  {
    if i == k {
      IncludesHead(line(k), Joined(line, count, i + 1));
    } else {
      LineIncluded(line, count, i + 1, k);
      IncludesInTail(line(i), Joined(line, count, i + 1), line(k));
    }
  }

  lemma IncludesHead(a: string, b: string)
    ensures Includes(a + b, a)
  {
    assert (a + b)[0..|a|] == a;
    assert OccursAt(a + b, a, 0);
  }

  lemma IncludesInTail(a: string, b: string, part: string)
    requires Includes(b, part)
    ensures Includes(a + b, part)
  {
    var j :| 0 <= j <= |b| - |part| && OccursAt(b, part, j);
    assert (a + b)[|a| + j..|a| + j + |part|] == b[j..j + |part|];
    assert OccursAt(a + b, part, |a| + j);
  }

  lemma DateLineShowsDate(before: string, date: string, after: string)
    ensures Includes(before + date + after, date)
  {
    assert (before + date + after)[|before|..|before| + |date|] == date;
    assert OccursAt(before + date + after, date, |before|);
  }

  lemma IncludesTransitive(s: string, part: string, sub: string)
    requires Includes(s, part) && Includes(part, sub)
    ensures Includes(s, sub)
  {
    var i :| 0 <= i <= |s| - |part| && OccursAt(s, part, i);
    var j :| 0 <= j <= |part| - |sub| && OccursAt(part, sub, j);
    forall m | 0 <= m < |sub|
      ensures s[i + j + m] == sub[m]
    {
      assert s[i..i + |part|][j + m] == part[j + m];
      assert part[j..j + |sub|][m] == sub[m];
    }
    assert s[i + j..i + j + |sub|] == sub;
    assert OccursAt(s, sub, i + j);
  }

  lemma PrefixOfConcat(a: string, b: string, n: nat)
    requires n <= |a|
    ensures (a + b)[..n] == a[..n]
  {
  }
}
