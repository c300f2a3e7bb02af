/** The message endpoints (backend/app/api/v1/endpoints/messages.py): the
    paginated history, posting a message, and the streaming exchange: the
    temperature and max_tokens cascades, the prompt with its project context,
    the event stream, the commit, and the first-title generation. */
module Messages {
  import opened Common
  import opened Strings
  import opened Store
  import opened Pagination
  import opened OllamaService

  // ---------------------------------------------------------------------------
  // list_messages and create_message

  datatype MessagePage = MessagePage(messages: seq<Message>, total: nat, page: nat, pageSize: nat, totalPages: nat)

  /** list_messages: one page of the chat's messages in created_at order. */
  function ListMessages(chats: seq<Chat>, messages: seq<Message>, chatId: ChatId, page: nat, pageSize: nat)
    : (r: Response<MessagePage>)
    requires page >= 1 && 1 <= pageSize <= 200
    ensures r.Fail? <==> !ChatExists(chats, chatId)
    ensures r.Fail? ==> r == ChatNotFound(chatId)
    ensures r.Ok? ==>
      && r.value.total == |MessagesOf(messages, chatId)|
      && r.value.totalPages == TotalPages(r.value.total, pageSize)
      && IsPage(r.value.messages, History(messages, chatId), page, pageSize)
      && SortedBy(r.value.messages, MessageBefore)
      && forall m :: m in r.value.messages ==> m in messages && m.chatId == chatId
  {
    match IndexOf(chats, ChatKey, chatId)
    case None => ChatNotFound(chatId)
    case Some(_) =>
      var history := History(messages, chatId);
      PageOfSorted(history, page, pageSize, MessageBefore);
      forall m | m in PageSlice(history, page, pageSize) ensures m in messages && m.chatId == chatId {
        assert m in multiset(history);
      }
      var total := |MessagesOf(messages, chatId)|;
      Ok(MessagePage(PageSlice(history, page, pageSize), total, page, pageSize, TotalPages(total, pageSize)))
  }

  /** create_message: stores a user message without asking the model. */
  method CreateMessage(db: Database, chatId: ChatId, id: MessageId, content: string, now: Time)
    returns (r: Response<Message>)
    modifies db`messages
    ensures r.Fail? <==> !ChatExists(db.chats, chatId)
    ensures r.Fail? ==> r == ChatNotFound(chatId) && db.messages == old(db.messages)
    ensures r.Ok? ==> r.value == Message(id, chatId, User, content, now) && db.messages == old(db.messages) + [r.value]
  {
    if IndexOf(db.chats, ChatKey, chatId).None? {
      return ChatNotFound(chatId);
    }
    var m := Message(id, chatId, User, content, now);
    db.messages := db.messages + [m];
    r := Ok(m);
  }

  // ---------------------------------------------------------------------------
  // Parameter cascades

  const DefaultTemperature: Temperature := 0.7
  const DefaultMaxTokens: int := 2048

  /** The first candidate present, or the default. */
  function FirstPresent<T>(candidates: seq<Option<T>>, default: T): (r: T)
    ensures (forall i :: 0 <= i < |candidates| ==> candidates[i].None?) ==> r == default
    ensures (exists i :: 0 <= i < |candidates| && candidates[i].Some?) ==>
      exists i :: 0 <= i < |candidates| && candidates[i] == Some(r) && forall j :: 0 <= j < i ==> candidates[j].None?
  {
    if |candidates| == 0 then default
    else if candidates[0].Some? then candidates[0].value
    else
      var r := FirstPresent(candidates[1..], default);
      assert forall i :: 1 <= i < |candidates| ==> candidates[i] == candidates[1..][i - 1];
      r
  }

  // The candidates of the cascades, each None when its row or its value is missing.
  function ChatTemperature(cs: Option<ChatSettings>): Option<Temperature> {
    if cs.Some? then cs.value.temperature else None
  }
  function ProjectTemperature(p: Option<Project>): Option<Temperature> {
    if p.Some? then p.value.temperature else None
  }
  function GlobalTemperature(g: Option<GlobalSettings>): Option<Temperature> {
    if g.Some? then Some(g.value.defaultTemperature) else None
  }
  function ChatMaxTokens(cs: Option<ChatSettings>): Option<int> {
    if cs.Some? then cs.value.maxTokens else None
  }
  function ProjectMaxTokens(p: Option<Project>): Option<int> {
    if p.Some? then p.value.maxTokens else None
  }
  function GlobalMaxTokens(g: Option<GlobalSettings>): Option<int> {
    if g.Some? then Some(g.value.defaultMaxTokens) else None
  }

  /** The temperature of a streamed reply: chat, then project, then global, then 0.7. */
  function ResolveTemperature(cs: Option<ChatSettings>, p: Option<Project>, g: Option<GlobalSettings>): (r: Temperature)
    ensures ChatTemperature(cs).Some? ==> r == ChatTemperature(cs).value
    ensures ChatTemperature(cs).None? && ProjectTemperature(p).None? && g.None? ==> r == DefaultTemperature
  {
    if cs.Some? && cs.value.temperature.Some? then cs.value.temperature.value
    else if p.Some? && p.value.temperature.Some? then p.value.temperature.value
    else if g.Some? then g.value.defaultTemperature
    else DefaultTemperature
  }

  /** The max_tokens of a streamed reply: chat, then project, then global, then 2048. */
  function ResolveMaxTokens(cs: Option<ChatSettings>, p: Option<Project>, g: Option<GlobalSettings>): (r: int)
    ensures ChatMaxTokens(cs).Some? ==> r == ChatMaxTokens(cs).value
    ensures ChatMaxTokens(cs).None? && ProjectMaxTokens(p).None? && g.None? ==> r == DefaultMaxTokens
  {
    if cs.Some? && cs.value.maxTokens.Some? then cs.value.maxTokens.value
    else if p.Some? && p.value.maxTokens.Some? then p.value.maxTokens.value
    else if g.Some? then g.value.defaultMaxTokens
    else DefaultMaxTokens
  }

  /** Both cascades pick the first level that has a value. */
  lemma CascadesPickFirstPresent(cs: Option<ChatSettings>, p: Option<Project>, g: Option<GlobalSettings>)
    ensures ResolveTemperature(cs, p, g)
         == FirstPresent([ChatTemperature(cs), ProjectTemperature(p), GlobalTemperature(g)], DefaultTemperature)
    ensures ResolveMaxTokens(cs, p, g)
         == FirstPresent([ChatMaxTokens(cs), ProjectMaxTokens(p), GlobalMaxTokens(g)], DefaultMaxTokens)
  {
    ThreeLevels([ChatTemperature(cs), ProjectTemperature(p), GlobalTemperature(g)], DefaultTemperature);
    ThreeLevels([ChatMaxTokens(cs), ProjectMaxTokens(p), GlobalMaxTokens(g)], DefaultMaxTokens);
  }

  lemma ThreeLevels<T>(c: seq<Option<T>>, default: T)
    requires |c| == 3
    ensures FirstPresent(c, default)
         == if c[0].Some? then c[0].value else if c[1].Some? then c[1].value else if c[2].Some? then c[2].value else default
  {
    assert c[1..][1..][1..] == [];
    assert FirstPresent(c[1..][1..][1..], default) == default;
    assert c[1..][0] == c[1] && c[1..][1..][0] == c[2];
  }

  /** Values within the tables' check constraints give a temperature in
      [0, 2] and a positive max_tokens. */
  lemma CascadesStayInRange(cs: Option<ChatSettings>, p: Option<Project>, g: Option<GlobalSettings>)
    requires cs.Some? && cs.value.temperature.Some? ==> 0.0 <= cs.value.temperature.value <= 2.0
    requires p.Some? && p.value.temperature.Some? ==> 0.0 <= p.value.temperature.value <= 2.0
    requires g.Some? ==> 0.0 <= g.value.defaultTemperature <= 2.0
    requires cs.Some? && cs.value.maxTokens.Some? ==> cs.value.maxTokens.value > 0
    requires p.Some? && p.value.maxTokens.Some? ==> p.value.maxTokens.value > 0
    requires g.Some? ==> g.value.defaultMaxTokens > 0
    ensures 0.0 <= ResolveTemperature(cs, p, g) <= 2.0
    ensures ResolveMaxTokens(cs, p, g) > 0
  {
  }

  // ---------------------------------------------------------------------------
  // Prompt assembly

  /** One file of the project context. */
  function FileBlock(f: ProjectFile): (r: string)
    ensures var head := "[File: " + f.filename + "]\n";
      && |r| == |head| + |f.content.GetOr("")| + |"\n[End of File]"|
      && r[..|head|] == head
      && r[|head|..|r| - |"\n[End of File]"|] == f.content.GetOr("")
      && r[|r| - |"\n[End of File]"|..] == "\n[End of File]"
  {
    var head := "[File: " + f.filename + "]\n";
    var r := head + f.content.GetOr("") + "\n[End of File]";
    assert r[..|head|] == head;
    assert r[|head|..|r| - |"\n[End of File]"|] == f.content.GetOr("");
    r
  }

  function FileBlocks(files: seq<ProjectFile>): (r: seq<string>)
    ensures |r| == |files|
    ensures forall i :: 0 <= i < |files| ==> r[i] == FileBlock(files[i])
  {
    seq(|files|, i requires 0 <= i < |files| => FileBlock(files[i]))
  }

  /** `project and project.custom_instructions`. */
  predicate HasInstructions(project: Option<Project>) {
    project.Some? && project.value.customInstructions.Some? && project.value.customInstructions.value != ""
  }

  /** system_prompt_parts: the instructions section, then the files section;
      files are included only for a chat linked to a project. */
  function SystemParts(project: Option<Project>, files: seq<ProjectFile>, linked: bool): (r: seq<string>)
    ensures |r| == (if HasInstructions(project) then 3 else 0) + (if linked && |files| > 0 then 3 else 0)
    ensures HasInstructions(project) ==>
      r[0] == "Project Context:" && r[1] == project.value.customInstructions.value && r[2] == ""
    ensures linked && |files| > 0 ==>
      r[|r| - 3] == "Project Files:" && r[|r| - 2] == Join(FileBlocks(files), "\n\n") && r[|r| - 1] == ""
  {
    (if HasInstructions(project) then ["Project Context:", project.value.customInstructions.value, ""] else [])
    + (if linked && |files| > 0 then ["Project Files:", Join(FileBlocks(files), "\n\n"), ""] else [])
  }

  /** The system message's content, when there is one. */
  function SystemPrompt(project: Option<Project>, files: seq<ProjectFile>, linked: bool): (r: Option<string>)
    ensures r.Some? <==> HasInstructions(project) || (linked && |files| > 0)
  {
    var parts := SystemParts(project, files, linked);
    if parts == [] then None else Some(Join(parts, "\n"))
  }

  /** The layout of the system message: the instructions section before the
      files section, each a heading line, its text, and an empty line. */
  lemma SystemPromptLayout(project: Option<Project>, files: seq<ProjectFile>, linked: bool)
    ensures var blocks := Join(FileBlocks(files), "\n\n");
      && (HasInstructions(project) && !(linked && |files| > 0) ==>
            SystemPrompt(project, files, linked) == Some("Project Context:\n" + project.value.customInstructions.value + "\n"))
      && (!HasInstructions(project) && linked && |files| > 0 ==>
            SystemPrompt(project, files, linked) == Some("Project Files:\n" + blocks + "\n"))
      && (HasInstructions(project) && linked && |files| > 0 ==>
            SystemPrompt(project, files, linked)
            == Some("Project Context:\n" + project.value.customInstructions.value + "\n\nProject Files:\n" + blocks + "\n"))
  {
    var blocks := Join(FileBlocks(files), "\n\n");
    if HasInstructions(project) {
      var ci := project.value.customInstructions.value;
      if linked && |files| > 0 {
        assert SystemParts(project, files, linked) == ["Project Context:", ci, "", "Project Files:", blocks, ""];
        JoinSix("Project Context:", ci, "", "Project Files:", blocks, "");
        BothSectionsText(ci, blocks);
      } else {
        assert SystemParts(project, files, linked) == ["Project Context:", ci, ""];
        JoinThree("Project Context:", ci, "");
        SectionText("Project Context:", "Project Context:\n", ci);
      }
    } else if linked && |files| > 0 {
      assert SystemParts(project, files, linked) == ["Project Files:", blocks, ""];
      JoinThree("Project Files:", blocks, "");
      SectionText("Project Files:", "Project Files:\n", blocks);
    }
  }

  lemma SectionText(heading: string, headingLine: string, text: string)
    requires headingLine == heading + "\n"
    ensures heading + "\n" + text + "\n" + "" == headingLine + text + "\n"
  {
  }

  lemma BothSectionsText(ci: string, blocks: string)
    ensures "Project Context:" + "\n" + ci + "\n" + "" + "\n" + "Project Files:" + "\n" + blocks + "\n" + ""
         == "Project Context:\n" + ci + "\n\nProject Files:\n" + blocks + "\n"
  {
    assert "Project Context:" + "\n" == "Project Context:\n";
    assert "\n" + "" + "\n" + "Project Files:" + "\n" == "\n\nProject Files:\n";
  }

  lemma JoinThree(a: string, b: string, c: string)
    ensures Join([a, b, c], "\n") == a + "\n" + b + "\n" + c
  {
    assert [a, b, c][1..] == [b, c] && [b, c][1..] == [c];
    assert Join([b, c], "\n") == b + "\n" + c;
    assert a + "\n" + (b + "\n" + c) == a + "\n" + b + "\n" + c;
  }

  lemma JoinSix(a: string, b: string, c: string, d: string, e: string, f: string)
    ensures Join([a, b, c, d, e, f], "\n") == a + "\n" + b + "\n" + c + "\n" + d + "\n" + e + "\n" + f
  {
    var s := [a, b, c, d, e, f];
    assert s[1..] == [b, c, d, e, f] && s[1..][1..] == [c, d, e, f] && s[1..][1..][1..] == [d, e, f];
    JoinThree(d, e, f);
    assert Join([c, d, e, f], "\n") == c + "\n" + (d + "\n" + e + "\n" + f);
    assert Join([b, c, d, e, f], "\n") == b + "\n" + (c + "\n" + (d + "\n" + e + "\n" + f));
    assert Join(s, "\n") == a + "\n" + (b + "\n" + (c + "\n" + (d + "\n" + e + "\n" + f)));
  }

  /** A single file block is the whole files section. */
  lemma OneFileBlock(f: ProjectFile)
    ensures Join(FileBlocks([f]), "\n\n") == "[File: " + f.filename + "]\n" + f.content.GetOr("") + "\n[End of File]"
  {
    assert FileBlocks([f]) == [FileBlock(f)];
  }

  function HistoryMessages(history: seq<Message>): (r: seq<ChatMessage>)
    ensures |r| == |history|
    ensures forall i :: 0 <= i < |history| ==> r[i] == ChatMessage(history[i].role, history[i].content)
  {
    seq(|history|, i requires 0 <= i < |history| => ChatMessage(history[i].role, history[i].content))
  }

  /** The messages sent upstream. */
  function Prompt(history: seq<Message>, project: Option<Project>, files: seq<ProjectFile>, linked: bool, message: string)
    : seq<ChatMessage>
  {
    (match SystemPrompt(project, files, linked)
     case Some(s) => [ChatMessage(System, s)]
     case None => [])
    + HistoryMessages(history) + [ChatMessage(User, message)]
  }

  /** The shape of the prompt: an optional system message, the history as
      stored, and the new user message last. */
  lemma PromptShape(history: seq<Message>, project: Option<Project>, files: seq<ProjectFile>, linked: bool, message: string)
    ensures var p := Prompt(history, project, files, linked, message);
      var offset := if HasInstructions(project) || (linked && |files| > 0) then 1 else 0;
      && |p| == |history| + 1 + offset
      && p[|p| - 1] == ChatMessage(User, message)
      && (offset == 1 ==> p[0] == ChatMessage(System, SystemPrompt(project, files, linked).value))
      && forall i :: 0 <= i < |history| ==> p[offset + i] == ChatMessage(history[i].role, history[i].content)
  {
    var sys := SystemPrompt(project, files, linked);
    var head: seq<ChatMessage> := if sys.Some? then [ChatMessage(System, sys.value)] else [];
    var h := HistoryMessages(history);
    assert Prompt(history, project, files, linked, message) == head + h + [ChatMessage(User, message)];
    Framed(head, h, ChatMessage(User, message));
  }

  lemma Framed(head: seq<ChatMessage>, h: seq<ChatMessage>, last: ChatMessage)
    ensures var p := head + h + [last];
      && |p| == |head| + |h| + 1
      && p[|p| - 1] == last
      && (|head| > 0 ==> p[0] == head[0])
      && forall i :: 0 <= i < |h| ==> p[|head| + i] == h[i]
  {
  }

  /** The prompt assembly: the history, then the project context gathered
      file by file, inserted at the front, and the user message appended. */
  method AssemblePrompt(history: seq<Message>, project: Option<Project>, files: seq<ProjectFile>, linked: bool,
                        message: string)
    returns (messages: seq<ChatMessage>)
    ensures messages == Prompt(history, project, files, linked, message)
  {
    messages := HistoryMessages(history);
    var parts: seq<string> := [];
    if HasInstructions(project) {
      parts := parts + ["Project Context:", project.value.customInstructions.value, ""];
    }
    if linked && |files| > 0 {
      var fileParts: seq<string> := [];
      for i := 0 to |files|
        invariant fileParts == FileBlocks(files[..i])
      {
        var f := files[i];
        var content := if f.content.Some? then f.content.value else "";
        fileParts := fileParts + ["[File: " + f.filename + "]\n" + content + "\n[End of File]"];
      }
      assert files[..|files|] == files;
      parts := parts + ["Project Files:", Join(fileParts, "\n\n"), ""];
    }
    assert parts == SystemParts(project, files, linked);
    if parts != [] {
      messages := [ChatMessage(System, Join(parts, "\n"))] + messages;
    }
    messages := messages + [ChatMessage(User, message)];
  }

  // ---------------------------------------------------------------------------
  // The streamed exchange

  /** A server-sent event: a piece of the reply, the end of the reply, or an error. */
  datatype Event = ContentEvent(content: string) | DoneEvent | ErrorEvent(error: string, detail: Option<string>)

  function ContentEvents(pieces: seq<string>): (r: seq<Event>)
    ensures |r| == |pieces|
    ensures forall i :: 0 <= i < |pieces| ==> r[i] == ContentEvent(pieces[i])
  {
    seq(|pieces|, i requires 0 <= i < |pieces| => ContentEvent(pieces[i]))
  }

  /** The error event for an error raised while streaming. */
  function FailureEvent(e: OllamaError): (r: Event)
    ensures r.ErrorEvent? && r.detail.Some?
    ensures e.ConnectionError? ==> r.detail == Some("Please ensure Ollama is running") && r.error == "Unable to connect to Ollama"
    ensures e.ModelNotFound? ==> r.error == "Internal server error" && r.detail == Some(ErrorText(e))
  {
    match e
    case ConnectionError(_, _) => ErrorEvent("Unable to connect to Ollama", Some("Please ensure Ollama is running"))
    case ModelNotFound(_) => ErrorEvent("Internal server error", Some(ErrorText(e)))
  }

  /** The relay loop: every piece goes out as an event and onto the reply. */
  method RelayPieces(pieces: seq<string>) returns (events: seq<Event>, fullResponse: string)
    ensures events == ContentEvents(pieces)
    ensures fullResponse == Concat(pieces)
  {
    events := [];
    fullResponse := "";
    for i := 0 to |pieces|
      invariant events == ContentEvents(pieces[..i])
      invariant fullResponse == Concat(pieces[..i])
    {
      assert pieces[..i + 1][..i] == pieces[..i];
      fullResponse := fullResponse + pieces[i];
      events := events + [ContentEvent(pieces[i])];
    }
    assert pieces[..|pieces|] == pieces;
  }

  /** The chat's project, when it has one and the row exists. */
  function ProjectOf(projects: seq<Project>, id: Option<ProjectId>): (r: Option<Project>)
    ensures r.Some? ==> id.Some? && r.value in projects && r.value.id == id.value
    ensures r.None? <==> id.None? || forall i :: 0 <= i < |projects| ==> projects[i].id != id.value
  {
    if id.None? then None
    else match IndexOf(projects, ProjectKey, id.value)
      case None => None
      case Some(k) => Some(projects[k])
  }

  function SettingsOf(rows: seq<ChatSettings>, chatId: ChatId): (r: Option<ChatSettings>)
    ensures r.Some? ==> r.value in rows && r.value.chatId == chatId
    ensures r.None? <==> forall i :: 0 <= i < |rows| ==> rows[i].chatId != chatId
  {
    match IndexOf(rows, ChatSettingsKey, chatId)
    case None => None
    case Some(k) => Some(rows[k])
  }

  /** The project files of a linked chat, in created_at order. */
  function ContextFiles(files: seq<ProjectFile>, id: Option<ProjectId>): seq<ProjectFile> {
    if id.Some? then FilesByCreation(files, id.value) else []
  }

  /** What a streamed exchange is sent for a chat: the options and the prompt. */
  datatype Request = Request(temperature: Temperature, maxTokens: int, prompt: seq<ChatMessage>)

  /** The request for the chat in the current state. */
  function RequestFor(db: Database, chat: Chat, message: string): (r: Request)
    reads db
    ensures r.prompt == Prompt(History(db.messages, chat.id), ProjectOf(db.projects, chat.projectId),
                               ContextFiles(db.files, chat.projectId), chat.projectId.Some?, message)
    ensures |r.prompt| >= 1 + |History(db.messages, chat.id)|
    ensures r.prompt[|r.prompt| - 1] == ChatMessage(User, message)
    ensures r.maxTokens == FirstPresent([ChatMaxTokens(SettingsOf(db.chatSettings, chat.id)),
                                         ProjectMaxTokens(ProjectOf(db.projects, chat.projectId)),
                                         GlobalMaxTokens(db.globalSettings)], DefaultMaxTokens)
    ensures r.temperature == FirstPresent([ChatTemperature(SettingsOf(db.chatSettings, chat.id)),
                                           ProjectTemperature(ProjectOf(db.projects, chat.projectId)),
                                           GlobalTemperature(db.globalSettings)], DefaultTemperature)
  {
    var project := ProjectOf(db.projects, chat.projectId);
    var cs := SettingsOf(db.chatSettings, chat.id);
    CascadesPickFirstPresent(cs, project, db.globalSettings);
    PromptShape(History(db.messages, chat.id), project, ContextFiles(db.files, chat.projectId),
                chat.projectId.Some?, message);
    Request(ResolveTemperature(cs, project, db.globalSettings),
            ResolveMaxTokens(cs, project, db.globalSettings),
            Prompt(History(db.messages, chat.id), project, ContextFiles(db.files, chat.projectId),
                   chat.projectId.Some?, message))
  }

  /** Reads what the exchange needs and builds its request. */
  method PrepareRequest(db: Database, chat: Chat, message: string) returns (r: Request)
    ensures r == RequestFor(db, chat, message)
  {
    var cs := SettingsOf(db.chatSettings, chat.id);
    var project := ProjectOf(db.projects, chat.projectId);
    var temperature := ResolveTemperature(cs, project, db.globalSettings);
    var maxTokens := ResolveMaxTokens(cs, project, db.globalSettings);
    var history := History(db.messages, chat.id);
    var files := ContextFiles(db.files, chat.projectId);
    var prompt := AssemblePrompt(history, project, files, chat.projectId.Some?, message);
    r := Request(temperature, maxTokens, prompt);
  }

  /** The number of the chat's messages with the role. */
  function RoleCount(messages: seq<Message>, chatId: ChatId, role: Role): nat {
    if |messages| == 0 then 0
    else RoleCount(messages[..|messages| - 1], chatId, role)
         + (if messages[|messages| - 1].chatId == chatId && messages[|messages| - 1].role == role then 1 else 0)
  }

  /** The reply just stored is the chat's first exactly when none preceded it. */
  lemma FirstReplyGate(messages: seq<Message>, chatId: ChatId, user: Message, assistant: Message)
    requires user.role == User && assistant.chatId == chatId && assistant.role == Assistant
    ensures RoleCount(messages + [user, assistant], chatId, Assistant) == 1 <==> RoleCount(messages, chatId, Assistant) == 0
  {
    assert (messages + [user, assistant])[..|messages| + 1] == messages + [user];
    assert (messages + [user])[..|messages|] == messages;
  }

  // ---------------------------------------------------------------------------
  // First-title generation

  /** What title generation works with: the feature flag, the loaded prompt,
      the title model, the service's URL, and the replies to the first and
      (if it comes to that) second attempt. */
  datatype TitleInputs = TitleInputs(
    enabled: bool, systemPrompt: string, titleModel: string, baseUrl: string,
    first: TitleReply, second: TitleReply)

  /** The earliest message with the role (LIMIT 1 over created_at order). */
  function FirstWithRole(history: seq<Message>, role: Role): (r: Option<Message>)
    ensures r.Some? ==> r.value in history && r.value.role == role
    ensures r.None? <==> forall i :: 0 <= i < |history| ==> history[i].role != role
    ensures r.Some? ==>
      exists k :: 0 <= k < |history| && history[k] == r.value && forall j :: 0 <= j < k ==> history[j].role != role
  {
    if |history| == 0 then None
    else if history[0].role == role then Some(history[0])
    else
      var r := FirstWithRole(history[1..], role);
      assert r.Some? ==> exists k :: 0 <= k < |history| && history[k] == r.value
                                    && forall j :: 0 <= j < k ==> history[j].role != role by {
        if r.Some? {
          var k :| 0 <= k < |history[1..]| && history[1..][k] == r.value
                   && forall j :: 0 <= j < k ==> history[1..][j].role != role;
          assert forall j :: 0 <= j < k + 1 ==> history[j].role != role by {
            forall j | 0 <= j < k + 1 ensures history[j].role != role {
              if j > 0 {
                assert history[j] == history[1..][j - 1];
              }
            }
          }
          assert history[k + 1] == r.value;
        }
      }
      r
  }

  /** The title an attempt's reply yields, or None when the call raised. */
  function AttemptTitle(reply: TitleReply): (r: Option<string>)
    ensures r.None? <==> reply.CallFailed?
    ensures r.Some? ==> r.value == CleanTitle(reply.content.GetOr("")) && Stripped(r.value) && |r.value| <= MaxTitleLength
  {
    if reply.Replied? then Some(CleanTitle(reply.content.GetOr(""))) else None
  }

  /** The title the attempts yield: the first reply's, or after a failed
      call the retry's; None when both calls raised. */
  function GeneratedTitle(t: TitleInputs): (r: Option<string>)
    ensures r.Some? ==> r == AttemptTitle(t.first) || (t.first.CallFailed? && r == AttemptTitle(t.second))
    ensures r.None? <==> t.first.CallFailed? && t.second.CallFailed?
  {
    if t.first.Replied? then AttemptTitle(t.first) else AttemptTitle(t.second)
  }

  /** The new title for the chat, if generation changes it. */
  function NewTitle(chats: seq<Chat>, messages: seq<Message>, chatId: ChatId, t: TitleInputs): (r: Option<string>)
    ensures r.Some? ==>
      && t.enabled
      && (exists i :: 0 <= i < |chats| && chats[i].id == chatId)
      && chats[IndexOf(chats, ChatKey, chatId).value].title == FallbackTitle
      && FirstWithRole(History(messages, chatId), User).Some?
      && FirstWithRole(History(messages, chatId), Assistant).Some?
      && r.value != "" && r.value != FallbackTitle
      && r == GeneratedTitle(t)
    ensures t.enabled && ChatExists(chats, chatId)
      && chats[IndexOf(chats, ChatKey, chatId).value].title == FallbackTitle
      && FirstWithRole(History(messages, chatId), User).Some?
      && FirstWithRole(History(messages, chatId), Assistant).Some?
      && GeneratedTitle(t).Some? && GeneratedTitle(t).value != "" && GeneratedTitle(t).value != FallbackTitle
      ==> r == GeneratedTitle(t)
  {
    if !t.enabled then None
    else match IndexOf(chats, ChatKey, chatId)
      case None => None
      case Some(k) =>
        if chats[k].title != FallbackTitle then None
        else
          var history := History(messages, chatId);
          if FirstWithRole(history, User).None? || FirstWithRole(history, Assistant).None? then None
          else
            var title := GeneratedTitle(t);
            if title.Some? && title.value != "" && title.value != FallbackTitle then title else None
  }

  /** The chats with the found chat's title replaced, when there is a new one. */
  function Retitled(chats: seq<Chat>, chatId: ChatId, title: Option<string>): (r: seq<Chat>)
    ensures |r| == |chats|
    ensures title.None? || !ChatExists(chats, chatId) ==> r == chats
    ensures title.Some? && ChatExists(chats, chatId) ==>
      var k := IndexOf(chats, ChatKey, chatId).value;
      r[k] == chats[k].(title := title.value) && forall i :: 0 <= i < |chats| && i != k ==> r[i] == chats[i]
  {
    if title.None? then chats
    else match IndexOf(chats, ChatKey, chatId)
      case None => chats
      case Some(k) => chats[k := chats[k].(title := title.value)]
  }

  /** Titles are only ever set on a chat still called "New Chat", never to
      an empty title or to "New Chat" itself, and nothing else changes. */
  lemma RetitleFacts(chats: seq<Chat>, messages: seq<Message>, chatId: ChatId, t: TitleInputs)
    ensures var after := Retitled(chats, chatId, NewTitle(chats, messages, chatId, t));
      forall i :: 0 <= i < |chats| ==>
        after[i] == chats[i]
        || (chats[i].id == chatId && chats[i].title == FallbackTitle
            && after[i] == chats[i].(title := after[i].title) && after[i].title != "" && after[i].title != FallbackTitle)
  {
  }

  /** The retry loop: at most two calls, a second one only after the first raised. */
  method TitleAttempts(t: TitleInputs, user: string, assistant: string) returns (title: Option<string>, attempts: nat)
    ensures title == GeneratedTitle(t)
    ensures 1 <= attempts <= 2
    ensures attempts == 2 <==> t.first.CallFailed?
  {
    title := None;
    attempts := 0;
    while attempts < 2
      invariant attempts <= 2
      invariant attempts == 0 ==> title.None?
      invariant attempts == 1 ==> (title == AttemptTitle(t.first) && title.Some?) || (title.None? && t.first.CallFailed?)
      invariant attempts == 2 ==> t.first.CallFailed? && title == AttemptTitle(t.second)
      decreases 2 - attempts
    {
      var reply := if attempts == 0 then t.first else t.second;
      var _, _, result := GenerateChatTitle(t.systemPrompt, [user], [assistant], reply, t.titleModel, t.baseUrl);
      attempts := attempts + 1;
      if result.Done? {
        title := Some(result.value);
        break;
      }
    }
  }

  /** generate_and_update_title: checks the flag, the chat, its title and its
      first messages, then makes at most two attempts and stores a usable title. */
  method GenerateAndUpdateTitle(db: Database, chatId: ChatId, t: TitleInputs) returns (attempts: nat)
    modifies db`chats
    ensures attempts <= 2
    ensures attempts == 2 ==> t.first.CallFailed?
    ensures db.chats == Retitled(old(db.chats), chatId, NewTitle(old(db.chats), db.messages, chatId, t))
  {
    attempts := 0;
    if !t.enabled {
      return;
    }
    var found := IndexOf(db.chats, ChatKey, chatId);
    if found.None? {
      return;
    }
    var k := found.value;
    if db.chats[k].title != FallbackTitle {
      return;
    }
    var history := History(db.messages, chatId);
    var user := FirstWithRole(history, User);
    var assistant := FirstWithRole(history, Assistant);
    if user.None? || assistant.None? {
      return;
    }
    var title;
    title, attempts := TitleAttempts(t, user.value.content, assistant.value.content);
    if title.Some? && title.value != "" && title.value != FallbackTitle {
      db.chats := db.chats[k := db.chats[k].(title := title.value)];
    }
  }

  // ---------------------------------------------------------------------------
  // stream_chat_response

  /** The identities and clock reading of the two messages an exchange stores. */
  datatype NewIds = NewIds(userId: MessageId, assistantId: MessageId, now: Time)

  /** The events of an exchange that got its chat: the pieces, then the end of
      the reply or the error. */
  function ExchangeEvents(chunks: seq<Chunk>, error: Option<OllamaError>): (r: seq<Event>)
    ensures |r| == |StreamPieces(chunks)| + 1
    ensures forall i :: 0 <= i < |r| - 1 ==> r[i] == ContentEvent(StreamPieces(chunks)[i])
    ensures r[|r| - 1] == DoneEvent <==> error.None?
    ensures error.Some? ==> r[|r| - 1] == FailureEvent(error.value)
  {
    ContentEvents(StreamPieces(chunks)) + [if error.Some? then FailureEvent(error.value) else DoneEvent]
  }

  /** stream_chat_response: for an unknown chat one error event and no
      change. Otherwise the request is built, the reply streamed piece by
      piece; on success both messages are committed, the first reply
      triggers title generation, and one done event closes the stream; an
      upstream error ends the stream with an error event and nothing is
      stored. */
  method StreamChatResponse(db: Database, chatId: ChatId, message: string, ids: NewIds, baseUrl: string,
                            chunks: seq<Chunk>, failure: Option<string>, t: TitleInputs)
    returns (events: seq<Event>, request: Option<Request>)
    modifies db`messages, db`chats
    ensures !ChatExists(old(db.chats), chatId) ==>
      events == [ErrorEvent("Chat " + chatId + " not found", None)] && request == None
      && db.messages == old(db.messages) && db.chats == old(db.chats)
    ensures ChatExists(old(db.chats), chatId) ==>
      var chat := old(db.chats)[IndexOf(old(db.chats), ChatKey, chatId).value];
      var error := if failure.Some? then Some(ClassifyError(failure.value, chat.model, baseUrl)) else None;
      && request == Some(old(RequestFor(db, chat, message)))
      && events == ExchangeEvents(chunks, error)
      && (failure.Some? ==> db.messages == old(db.messages) && db.chats == old(db.chats))
      && (failure.None? ==>
           && db.messages == old(db.messages) + [Message(ids.userId, chatId, User, message, ids.now),
                                                 Message(ids.assistantId, chatId, Assistant, Concat(ChunkTexts(chunks)), ids.now)]
           && db.chats == (if RoleCount(old(db.messages), chatId, Assistant) == 0
                           then Retitled(old(db.chats), chatId, NewTitle(old(db.chats), db.messages, chatId, t))
                           else old(db.chats)))
  {
    var found := IndexOf(db.chats, ChatKey, chatId);
    if found.None? {
      return [ErrorEvent("Chat " + chatId + " not found", None)], None;
    }
    var chat := db.chats[found.value];
    var req := PrepareRequest(db, chat, message);
    request := Some(req);
    var userMessage := Message(ids.userId, chatId, User, message, ids.now);
    var _, pieces, error := StreamChat(chat.model, baseUrl, Some(req.temperature), Some(req.maxTokens), chunks, failure);
    var fullResponse;
    events, fullResponse := RelayPieces(pieces);
    if error.Some? {
      events := events + [FailureEvent(error.value)];
      return;
    }
    StreamPiecesConcat(chunks);
    var assistantMessage := Message(ids.assistantId, chatId, Assistant, fullResponse, ids.now);
    FirstReplyGate(db.messages, chatId, userMessage, assistantMessage);
    db.messages := db.messages + [userMessage, assistantMessage];
    if RoleCount(db.messages, chatId, Assistant) == 1 {
      var _ := GenerateAndUpdateTitle(db, chatId, t);
    }
    events := events + [DoneEvent];
  }
}
