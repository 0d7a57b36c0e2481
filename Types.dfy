/** The enumerations, records and lookup tables of the application's data model. `Task` and its status,
    which the board components use, have the same shape as `Subtask` and its status. Each string
    enumeration is a datatype with a function giving its wire name; the status, whose names travel
    as droppable ids, also has a parser back from its name. Each lookup table is a function by
    cases over the enumeration that keys the source's record. */
module Types {
  import opened JsText

  // ---------------------------------------------------------------------------------------------
  // Status of tasks and subtasks
  // ---------------------------------------------------------------------------------------------

  datatype Status = Backlog | InProgress | Done

  function StatusName(s: Status): string {
    match s
    case Backlog => "backlog"
    case InProgress => "in_progress"
    case Done => "done"
  }

  /** The status a wire name denotes, if it denotes one. */
  function ParseStatus(name: string): (r: Option<Status>)
    ensures r.Some? ==> StatusName(r.value) == name
    ensures r.Some? <==> name in {"backlog", "in_progress", "done"}
  {
    if name == "backlog" then Some(Backlog)
    else if name == "in_progress" then Some(InProgress)
    else if name == "done" then Some(Done)
    else None
  }

  /** Reading a status back from its name gives that status. */
  lemma StatusNameRoundTrip(s: Status)
    ensures ParseStatus(StatusName(s)) == Some(s)
  {
  }

  /** No status name contains a colon. */
  lemma StatusNameHasNoColon(s: Status)
    ensures ':' !in StatusName(s)
  {
  }

  // ---------------------------------------------------------------------------------------------
  // User stories and their priorities
  // ---------------------------------------------------------------------------------------------

  datatype UserStoryPriority = Low | Medium | High | Critical

  function PriorityName(p: UserStoryPriority): string {
    match p
    case Low => "low"
    case Medium => "medium"
    case High => "high"
    case Critical => "critical"
  }

  datatype PriorityConfig = PriorityConfig(caption: string, color: string, dot: string)

  /** The `USER_STORY_PRIORITIES` table, keyed by priority. */
  function PriorityConfigOf(p: UserStoryPriority): PriorityConfig {
    match p
    case Low => PriorityConfig("Baja", "bg-slate-100 text-slate-700", "bg-slate-400")
    case Medium => PriorityConfig("Media", "bg-blue-100 text-blue-700", "bg-blue-400")
    case High => PriorityConfig("Alta", "bg-amber-100 text-amber-700", "bg-amber-400")
    case Critical => PriorityConfig("Critica", "bg-red-100 text-red-700", "bg-red-500")
  }

  /** No two priorities share a caption, so the badge names the priority. */
  lemma PriorityCaptionsDistinct(p: UserStoryPriority, q: UserStoryPriority)
    ensures PriorityConfigOf(p).caption == PriorityConfigOf(q).caption ==> p == q
  {
  }

  datatype Project = Project(
    id: string, user_id: string, name: string, description: Option<string>,
    created_at: string, updated_at: string)

  datatype UserStory = UserStory(
    id: string, project_id: string, title: string, description: Option<string>,
    priority: UserStoryPriority, story_points: Option<int>, story_points_override: bool,
    sort_order: int, created_at: string, updated_at: string)

  datatype AcceptanceCriterion = AcceptanceCriterion(
    id: string, user_story_id: string, description: string, is_completed: bool,
    sort_order: int, created_at: string)

  // ---------------------------------------------------------------------------------------------
  // Subtasks, tasks and their types
  // ---------------------------------------------------------------------------------------------

  datatype SubtaskType = Frontend | Backend | Testing | Devops | Design | Other

  function SubtaskTypeName(t: SubtaskType): string {
    match t
    case Frontend => "frontend"
    case Backend => "backend"
    case Testing => "testing"
    case Devops => "devops"
    case Design => "design"
    case Other => "other"
  }

  datatype SubtaskTypeConfig = SubtaskTypeConfig(caption: string, icon: string, color: string)

  /** The `SUBTASK_TYPES` table, keyed by subtask type. */
  function SubtaskTypeConfigOf(t: SubtaskType): SubtaskTypeConfig {
    match t
    case Frontend => SubtaskTypeConfig("Frontend", "🎨", "bg-purple-100 text-purple-700")
    case Backend => SubtaskTypeConfig("Backend", "⚙️", "bg-blue-100 text-blue-700")
    case Testing => SubtaskTypeConfig("Testing", "🧪", "bg-green-100 text-green-700")
    case Devops => SubtaskTypeConfig("DevOps", "🚀", "bg-orange-100 text-orange-700")
    case Design => SubtaskTypeConfig("Diseno", "✏️", "bg-pink-100 text-pink-700")
    case Other => SubtaskTypeConfig("Otro", "📦", "bg-slate-100 text-slate-700")
  }

  /** No two subtask types share a caption, so the badge names the type. */
  lemma SubtaskTypeCaptionsDistinct(t: SubtaskType, u: SubtaskType)
    ensures SubtaskTypeConfigOf(t).caption == SubtaskTypeConfigOf(u).caption ==> t == u
  {
  }

  /** A subtask; the source's field `type` is called `kind` here, `type` being a Dafny keyword. */
  datatype Subtask = Subtask(
    id: string, user_story_id: string, title: string, description: Option<string>,
    status: Status, assigned_to: Option<string>, kind: SubtaskType, story_points: Option<int>,
    sort_order: int, created_at: string, updated_at: string)

  /** A board task: the fields the board, its columns, cards and modal read. */
  datatype Task = Task(
    id: string, project_id: string, title: string, description: Option<string>,
    status: Status, story_points: Option<int>, google_doc_link: Option<string>,
    created_at: string, updated_at: string)

  // ---------------------------------------------------------------------------------------------
  // Profiles, roles and avatars
  // ---------------------------------------------------------------------------------------------

  datatype Role = Pm | Developer

  function RoleName(r: Role): string {
    match r
    case Pm => "pm"
    case Developer => "developer"
  }

  /** The `ROLE_LABELS` table. */
  const RoleLabels: map<string, string> := map["pm" := "PM", "developer" := "Developer"]

  /** Every role has a short label. */
  lemma RoleLabelsTotal()
    ensures forall r: Role :: RoleName(r) in RoleLabels
  {
  }

  datatype SlothAvatarId =
    | SlothDefault | SlothHappy | SlothSleepy | SlothCool
    | SlothHeart | SlothStar | SlothCoffee | SlothZen

  function AvatarName(a: SlothAvatarId): string {
    match a
    case SlothDefault => "sloth-default"
    case SlothHappy => "sloth-happy"
    case SlothSleepy => "sloth-sleepy"
    case SlothCool => "sloth-cool"
    case SlothHeart => "sloth-heart"
    case SlothStar => "sloth-star"
    case SlothCoffee => "sloth-coffee"
    case SlothZen => "sloth-zen"
  }

  datatype AvatarConfig = AvatarConfig(image: string, caption: string, bg: string)

  /** The `SLOTH_AVATARS` table, keyed by avatar id. Each entry's image is the file named after its
      id, so the table never shows one avatar's picture for another. */
  function AvatarConfigOf(a: SlothAvatarId): (c: AvatarConfig)
    ensures c.image == "/avatars/" + AvatarName(a) + ".png"
  {
    match a
    case SlothDefault => SlothDefaultImage(); AvatarConfig("/avatars/sloth-default.png", "Perezoso", "bg-moss-100")
    case SlothHappy => SlothHappyImage(); AvatarConfig("/avatars/sloth-happy.png", "Feliz", "bg-amber-100")
    case SlothSleepy => SlothSleepyImage(); AvatarConfig("/avatars/sloth-sleepy.png", "Dormilon", "bg-blue-100")
    case SlothCool => SlothCoolImage(); AvatarConfig("/avatars/sloth-cool.png", "Cool", "bg-purple-100")
    case SlothHeart => SlothHeartImage(); AvatarConfig("/avatars/sloth-heart.png", "Carinoso", "bg-pink-100")
    case SlothStar => SlothStarImage(); AvatarConfig("/avatars/sloth-star.png", "Estrella", "bg-yellow-100")
    case SlothCoffee => SlothCoffeeImage(); AvatarConfig("/avatars/sloth-coffee.png", "Cafetero", "bg-orange-100")
    case SlothZen => SlothZenImage(); AvatarConfig("/avatars/sloth-zen.png", "Zen", "bg-teal-100")
  }

  // One lemma per table entry: its image literal is the avatar directory, the id and the extension.
  lemma SlothDefaultImage() ensures "/avatars/sloth-default.png" == "/avatars/" + AvatarName(SlothDefault) + ".png" {}
  lemma SlothHappyImage() ensures "/avatars/sloth-happy.png" == "/avatars/" + AvatarName(SlothHappy) + ".png" {}
  lemma SlothSleepyImage() ensures "/avatars/sloth-sleepy.png" == "/avatars/" + AvatarName(SlothSleepy) + ".png" {}
  lemma SlothCoolImage() ensures "/avatars/sloth-cool.png" == "/avatars/" + AvatarName(SlothCool) + ".png" {}
  lemma SlothHeartImage() ensures "/avatars/sloth-heart.png" == "/avatars/" + AvatarName(SlothHeart) + ".png" {}
  lemma SlothStarImage() ensures "/avatars/sloth-star.png" == "/avatars/" + AvatarName(SlothStar) + ".png" {}
  lemma SlothCoffeeImage() ensures "/avatars/sloth-coffee.png" == "/avatars/" + AvatarName(SlothCoffee) + ".png" {}
  lemma SlothZenImage() ensures "/avatars/sloth-zen.png" == "/avatars/" + AvatarName(SlothZen) + ".png" {}

  datatype Profile = Profile(
    id: string, email: Option<string>, full_name: Option<string>, role: Role,
    avatar: Option<SlothAvatarId>, created_at: string)

  // ---------------------------------------------------------------------------------------------
  // Planning poker records
  // ---------------------------------------------------------------------------------------------

  /** A guest voter; it belongs to the one session its `session_id` names. */
  datatype GuestVoter = GuestVoter(
    id: string, session_id: string, name: string, avatar: SlothAvatarId, created_at: string)

  datatype SessionStatus = Voting | Revealed

  function SessionStatusName(s: SessionStatus): string {
    match s
    case Voting => "voting"
    case Revealed => "revealed"
  }

  datatype VotingSession = VotingSession(
    id: string, subtask_id: Option<string>, status: SessionStatus, created_by: string,
    created_at: string, revealed_at: Option<string>)

  datatype Vote = Vote(
    id: string, session_id: string, user_id: Option<string>, guest_id: Option<string>,
    story_points: int, created_at: string)

  /** Who cast a vote: a registered user or a guest. */
  datatype Voter = Registered(userId: string) | Guest(guestId: string)

  /** A vote row names exactly one voter: a user id for registered users, a guest id otherwise. */
  predicate IdentifiesOneVoter(v: Vote) {
    v.user_id.Some? != v.guest_id.Some?
  }

  /** The voter a well-formed vote row names; the user id is null exactly for guests. */
  function VoterOf(v: Vote): (r: Voter)
    requires IdentifiesOneVoter(v)
    ensures r.Guest? <==> v.user_id.None?
    ensures r.Registered? ==> v.user_id == Some(r.userId)
    ensures r.Guest? ==> v.guest_id == Some(r.guestId)
  {
    if v.user_id.Some? then Registered(v.user_id.value) else Guest(v.guest_id.value)
  }

  // ---------------------------------------------------------------------------------------------
  // Documents and links
  // ---------------------------------------------------------------------------------------------

  datatype DocumentType = General | Prd | Spec | MeetingNotes | Retrospective

  function DocumentTypeName(t: DocumentType): string {
    match t
    case General => "general"
    case Prd => "prd"
    case Spec => "spec"
    case MeetingNotes => "meeting_notes"
    case Retrospective => "retrospective"
  }

  datatype DocumentTypeConfig = DocumentTypeConfig(caption: string, icon: string, color: string, description: string)

  /** The `DOCUMENT_TYPES` table, keyed by document type. */
  function DocumentTypeConfigOf(t: DocumentType): DocumentTypeConfig {
    match t
    case General => DocumentTypeConfig("General", "📄", "bg-slate-100 text-slate-700", "Documentacion general del proyecto")
    case Prd => DocumentTypeConfig("PRD", "📋", "bg-blue-100 text-blue-700", "Product Requirements Document")
    case Spec => DocumentTypeConfig("Technical Spec", "⚙️", "bg-purple-100 text-purple-700", "Especificacion tecnica")
    case MeetingNotes => DocumentTypeConfig("Meeting Notes", "📝", "bg-amber-100 text-amber-700", "Notas de reuniones")
    case Retrospective => DocumentTypeConfig("Retrospective", "🔄", "bg-moss-100 text-moss-700", "Retrospectiva de sprint")
  }

  /** No two document types share a caption, so the filter badge names the type. */
  lemma DocumentTypeCaptionsDistinct(t: DocumentType, u: DocumentType)
    ensures DocumentTypeConfigOf(t).caption == DocumentTypeConfigOf(u).caption ==> t == u
  {
  }

  /** The order of the `DOCUMENT_TYPES` entries, in which the type filter badges are listed. */
  const DocumentTypeOrder: seq<DocumentType> := [General, Prd, Spec, MeetingNotes, Retrospective]

  /** The badge order lists every document type exactly once. */
  lemma DocumentTypeOrderComplete()
    ensures forall t: DocumentType :: t in DocumentTypeOrder
    ensures |DocumentTypeOrder| == 5
    ensures forall i, j :: 0 <= i < j < |DocumentTypeOrder| ==> DocumentTypeOrder[i] != DocumentTypeOrder[j]
  {
    forall t: DocumentType
      ensures t in DocumentTypeOrder
    {
      match t
      case General => assert DocumentTypeOrder[0] == t;
      case Prd => assert DocumentTypeOrder[1] == t;
      case Spec => assert DocumentTypeOrder[2] == t;
      case MeetingNotes => assert DocumentTypeOrder[3] == t;
      case Retrospective => assert DocumentTypeOrder[4] == t;
    }
  }

  /** A project document; the source's field `type` is called `kind` here. */
  datatype Document = Document(
    id: string, project_id: string, title: string, content: string, kind: DocumentType,
    created_by: Option<string>, created_at: string, updated_at: string)

  datatype LinkType = Github | Figma | Docs | External | OtherLink

  function LinkTypeName(t: LinkType): string {
    match t
    case Github => "github"
    case Figma => "figma"
    case Docs => "docs"
    case External => "external"
    case OtherLink => "other"
  }

  datatype LinkTypeConfig = LinkTypeConfig(caption: string, icon: string, color: string)

  /** The `LINK_TYPES` table, keyed by link type. */
  function LinkTypeConfigOf(t: LinkType): LinkTypeConfig {
    match t
    case Github => LinkTypeConfig("GitHub", "🔗", "text-gray-900")
    case Figma => LinkTypeConfig("Figma", "🎨", "text-purple-600")
    case Docs => LinkTypeConfig("Documentation", "📚", "text-blue-600")
    case External => LinkTypeConfig("External", "🌐", "text-gray-600")
    case OtherLink => LinkTypeConfig("Other", "📎", "text-gray-500")
  }

  /** No two link types share a caption, so the link's label names its type. */
  lemma LinkTypeCaptionsDistinct(t: LinkType, u: LinkType)
    ensures LinkTypeConfigOf(t).caption == LinkTypeConfigOf(u).caption ==> t == u
  {
  }

  datatype UserStoryDocument = UserStoryDocument(
    id: string, user_story_id: string, title: string, content: string,
    created_at: string, updated_at: string)

  datatype UserStoryLink = UserStoryLink(
    id: string, user_story_id: string, url: string, title: Option<string>, kind: LinkType,
    created_at: string)

  /** What a persistence call answers: the row it returns, or an error. */
  datatype Response<T> = Data(row: T) | Error(message: Option<string>)
}
