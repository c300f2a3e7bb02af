/** The rows of the backend's tables and the database that holds them. Each
    table is a sequence in storage order; `created_at` and `updated_at` are
    abstract clock readings. */
module Store {
  import opened Common
  import opened Strings

  type ChatId = string
  type MessageId = string
  type ProjectId = string
  type FileId = string
  type ServerId = string

  /** A clock reading (DateTime in the tables). */
  type Time = nat

  /** A temperature is only stored and selected, never computed with. */
  type Temperature = real

  datatype Role = User | Assistant | System

  function RoleName(r: Role): (s: string)
    ensures |s| > 0
  {
    match r
    case User => "user"
    case Assistant => "assistant"
    case System => "system"
  }

  datatype Message = Message(id: MessageId, chatId: ChatId, role: Role, content: string, createdAt: Time)

  datatype Chat = Chat(
    id: ChatId, title: string, model: string, isArchived: bool,
    projectId: Option<ProjectId>, serverId: Option<ServerId>,
    createdAt: Time, updatedAt: Time)

  /** One chat_settings row; every override may be null. */
  datatype ChatSettings = ChatSettings(
    chatId: ChatId, temperature: Option<Temperature>, maxTokens: Option<int>, systemPrompt: Option<string>)

  /** The single global settings row. */
  datatype GlobalSettings = GlobalSettings(
    id: int, defaultModel: string, summarizationModel: string,
    defaultTemperature: Temperature, defaultMaxTokens: int, numCtx: int, theme: string)

  datatype Project = Project(
    id: ProjectId, name: string, customInstructions: Option<string>, isArchived: bool,
    defaultModel: Option<string>, temperature: Option<Temperature>, maxTokens: Option<int>,
    createdAt: Time, updatedAt: Time)

  datatype ProjectFile = ProjectFile(
    id: FileId, projectId: ProjectId, filename: string, filePath: string, fileType: string,
    fileSize: nat, contentPreview: Option<string>, content: Option<string>, createdAt: Time)

  /** The four values the valid_status check constraint admits. */
  datatype ServerStatus = Online | Offline | Unknown | Error

  datatype OllamaServer = OllamaServer(
    id: ServerId, name: string, url: string, description: Option<string>, isActive: bool,
    status: ServerStatus, lastCheckedAt: Option<Time>, lastError: Option<string>,
    modelsCount: nat, averageResponseTimeMs: Option<int>)

  /** The body of an error response: an HTTPException's plain or structured
      detail, or the body the application's handler for an escaped
      OllamaConnectionError writes. */
  datatype ErrorDetail =
    | Detail(text: string)
    | ErrorBody(error: string, suggestion: string)
    | ConnectionErrorBody(error: string, detail: string, suggestion: string, url: string)

  /** An endpoint's result: its value, or the HTTPException it raises. */
  datatype Response<T> = Ok(value: T) | Fail(status: nat, detail: ErrorDetail)

  /** True when a chat with the id is stored. */
  predicate ChatExists(chats: seq<Chat>, id: ChatId) {
    exists i :: 0 <= i < |chats| && chats[i].id == id
  }

  /** The refusal of the chat lookup every per-chat endpoint depends on. */
  function ChatNotFound<T>(id: ChatId): (r: Response<T>)
    ensures r.Fail? && r.status == 404 && r.detail == Detail("Chat " + id + " not found")
  {
    Fail(404, Detail("Chat " + id + " not found"))
  }

  // Primary keys.
  function ChatKey(c: Chat): ChatId { c.id }
  function ProjectKey(p: Project): ProjectId { p.id }
  function FileKey(f: ProjectFile): FileId { f.id }
  function ServerKey(s: OllamaServer): ServerId { s.id }
  function ChatSettingsKey(s: ChatSettings): ChatId { s.chatId }

  // Orderings of the listings.
  predicate MessageBefore(a: Message, b: Message) { a.createdAt <= b.createdAt }
  predicate FileBefore(a: ProjectFile, b: ProjectFile) { a.createdAt <= b.createdAt }
  predicate ChatNewerFirst(a: Chat, b: Chat) { a.updatedAt >= b.updatedAt }
  predicate ProjectNewerFirst(a: Project, b: Project) { a.updatedAt >= b.updatedAt }
  predicate ServerNameLe(a: OllamaServer, b: OllamaServer) { LexLe(a.name, b.name) }

  lemma OrderingsArePreorders()
    ensures TotalPreorder(MessageBefore) && TotalPreorder(FileBefore)
    ensures TotalPreorder(ChatNewerFirst) && TotalPreorder(ProjectNewerFirst)
    ensures TotalPreorder(ServerNameLe)
  {
    forall a: OllamaServer, b: OllamaServer ensures ServerNameLe(a, b) || ServerNameLe(b, a) {
      LexLeTotal(a.name, b.name);
    }
    forall a: OllamaServer, b: OllamaServer, c: OllamaServer
      | ServerNameLe(a, b) && ServerNameLe(b, c)
      ensures ServerNameLe(a, c)
    {
      LexLeTransitive(a.name, b.name, c.name);
    }
  }

  // Relationships.

  /** chat.messages: the messages whose chat_id is the chat's id, in storage order. */
  function MessagesOf(messages: seq<Message>, chatId: ChatId): (r: seq<Message>)
    ensures forall i :: 0 <= i < |r| ==> r[i] in messages && r[i].chatId == chatId
    ensures forall i :: 0 <= i < |messages| && messages[i].chatId == chatId ==> messages[i] in r
  {
    Filter(messages, (m: Message) => m.chatId == chatId)
  }

  /** The chat's messages ordered by created_at. */
  function History(messages: seq<Message>, chatId: ChatId): (r: seq<Message>)
    ensures SortedBy(r, MessageBefore)
    ensures multiset(r) == multiset(MessagesOf(messages, chatId))
  {
    OrderingsArePreorders();
    Sort(MessagesOf(messages, chatId), MessageBefore)
  }

  /** project.files: the files whose project_id is the project's id. */
  function FilesOf(files: seq<ProjectFile>, projectId: ProjectId): (r: seq<ProjectFile>)
    ensures forall i :: 0 <= i < |r| ==> r[i] in files && r[i].projectId == projectId
    ensures forall i :: 0 <= i < |files| && files[i].projectId == projectId ==> files[i] in r
  {
    Filter(files, (f: ProjectFile) => f.projectId == projectId)
  }

  /** The project's files ordered by created_at. */
  function FilesByCreation(files: seq<ProjectFile>, projectId: ProjectId): (r: seq<ProjectFile>)
    ensures SortedBy(r, FileBefore)
    ensures multiset(r) == multiset(FilesOf(files, projectId))
  {
    OrderingsArePreorders();
    Sort(FilesOf(files, projectId), FileBefore)
  }

  /** project.chats: the chats whose project_id is the project's id. */
  function ChatsOf(chats: seq<Chat>, projectId: ProjectId): (r: seq<Chat>)
    ensures forall i :: 0 <= i < |r| ==> r[i] in chats && r[i].projectId == Some(projectId)
    ensures forall i :: 0 <= i < |chats| && chats[i].projectId == Some(projectId) ==> chats[i] in r
  {
    Filter(chats, (c: Chat) => c.projectId == Some(projectId))
  }

  /** The whole database: one sequence per table and the optional settings row. */
  class Database {
    var chats: seq<Chat>
    var messages: seq<Message>
    var chatSettings: seq<ChatSettings>
    var globalSettings: Option<GlobalSettings>
    var projects: seq<Project>
    var files: seq<ProjectFile>
    var servers: seq<OllamaServer>

    constructor ()
      ensures chats == [] && messages == [] && chatSettings == [] && globalSettings == None
      ensures projects == [] && files == [] && servers == []
    {
      chats, messages, chatSettings, globalSettings := [], [], [], None;
      projects, files, servers := [], [], [];
    }
  }
}
