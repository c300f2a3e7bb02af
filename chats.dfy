/** The chat endpoints (backend/app/api/v1/endpoints/chats.py): the filtered,
    paginated listing, a chat with its history, creation with server
    validation, patching, archiving and deletion. */
module Chats {
  import opened Common
  import opened Strings
  import opened Store
  import opened Pagination

  // ---------------------------------------------------------------------------
  // Listing

  /** What the project_id query parameter selects. */
  datatype ProjectFilter = AnyProject | Standalone | InProject(projectId: ProjectId)

  /** `project_id.lower() == "null" or project_id == ""`. */
  predicate MeansNoProject(v: string) {
    Lower(v) == "null" || v == ""
  }

  function ClassifyProjectFilter(projectId: Option<string>): (r: ProjectFilter)
    ensures r == AnyProject <==> projectId.None?
    ensures r == Standalone <==> projectId.Some? && MeansNoProject(projectId.value)
    ensures r.InProject? <==> projectId.Some? && !MeansNoProject(projectId.value)
    ensures r.InProject? ==> r.projectId == projectId.value
  {
    match projectId
    case None => AnyProject
    case Some(v) => if MeansNoProject(v) then Standalone else InProject(v)
  }

  /** "null" is recognised whatever its letter case. */
  lemma NullInAnyCase(v: string)
    requires |v| == 4 && v[0] in "nN" && v[1] in "uU" && v[2] in "lL" && v[3] in "lL"
    ensures ClassifyProjectFilter(Some(v)) == Standalone
  {
    assert Lower(v) == [LowerChar(v[0]), LowerChar(v[1]), LowerChar(v[2]), LowerChar(v[3])];
  }

  /** The WHERE clauses of list_chats. */
  predicate Selected(c: Chat, includeArchived: bool, f: ProjectFilter) {
    && (includeArchived || !c.isArchived)
    && match f
       case AnyProject => true
       case Standalone => c.projectId.None?
       case InProject(id) => c.projectId == Some(id)
  }

  function MatchingChats(chats: seq<Chat>, includeArchived: bool, f: ProjectFilter): (r: seq<Chat>)
    ensures forall c :: c in r <==> c in chats && Selected(c, includeArchived, f)
  {
    Filter(chats, (c: Chat) => Selected(c, includeArchived, f))
  }

  /** The matching chats, most recently updated first. */
  function OrderedChats(chats: seq<Chat>, includeArchived: bool, f: ProjectFilter): (r: seq<Chat>)
    ensures SortedBy(r, ChatNewerFirst)
    ensures multiset(r) == multiset(MatchingChats(chats, includeArchived, f))
    ensures |r| == |MatchingChats(chats, includeArchived, f)|
  {
    OrderingsArePreorders();
    Sort(MatchingChats(chats, includeArchived, f), ChatNewerFirst)
  }

  /** `len(chat.messages)`. */
  function MessageCount(messages: seq<Message>, chatId: ChatId): nat {
    |MessagesOf(messages, chatId)|
  }

  /** A ChatResponse: the row with its message count. */
  datatype ChatSummary = ChatSummary(chat: Chat, messageCount: nat)

  datatype ChatPage = ChatPage(chats: seq<ChatSummary>, total: nat, page: nat, pageSize: nat, totalPages: nat)

  /** list_chats: one page of the matching chats, newest first, each with its
      message count, and the totals over all matching chats. */
  method ListChats(db: Database, page: nat, pageSize: nat, includeArchived: bool, projectId: Option<string>)
    returns (r: ChatPage)
    requires page >= 1 && 1 <= pageSize <= 100
    ensures var f := ClassifyProjectFilter(projectId);
      && r.total == |MatchingChats(db.chats, includeArchived, f)|
      && r.page == page && r.pageSize == pageSize
      && r.totalPages == TotalPages(r.total, pageSize)
      && |r.chats| == |PageSlice(OrderedChats(db.chats, includeArchived, f), page, pageSize)|
      && forall i :: 0 <= i < |r.chats| ==>
           r.chats[i] == ChatSummary(PageSlice(OrderedChats(db.chats, includeArchived, f), page, pageSize)[i],
                                     MessageCount(db.messages, r.chats[i].chat.id))
  {
    var f := ClassifyProjectFilter(projectId);
    var total := |MatchingChats(db.chats, includeArchived, f)|;
    var chats := PageSlice(OrderedChats(db.chats, includeArchived, f), page, pageSize);
    var responses := SummarizeChats(db.messages, chats);
    r := ChatPage(responses, total, page, pageSize, TotalPages(total, pageSize));
  }

  /** The loop of the chat listings: each chat with its message count, in order. */
  method SummarizeChats(messages: seq<Message>, chats: seq<Chat>) returns (responses: seq<ChatSummary>)
    ensures |responses| == |chats|
    ensures forall k :: 0 <= k < |chats| ==> responses[k] == ChatSummary(chats[k], MessageCount(messages, chats[k].id))
  {
    responses := [];
    for i := 0 to |chats|
      invariant |responses| == i
      invariant forall k :: 0 <= k < i ==> responses[k] == ChatSummary(chats[k], MessageCount(messages, chats[k].id))
    {
      responses := responses + [ChatSummary(chats[i], MessageCount(messages, chats[i].id))];
    }
  }

  /** Every chat on a page passes the filters and the page is newest first. */
  lemma ListedChatsMatch(chats: seq<Chat>, page: nat, pageSize: nat, includeArchived: bool, projectId: Option<string>)
    requires page >= 1 && pageSize >= 1
    ensures var rows := PageSlice(OrderedChats(chats, includeArchived, ClassifyProjectFilter(projectId)), page, pageSize);
      && SortedBy(rows, ChatNewerFirst)
      && forall c :: c in rows ==> c in chats && Selected(c, includeArchived, ClassifyProjectFilter(projectId))
  {
    var f := ClassifyProjectFilter(projectId);
    var ordered := OrderedChats(chats, includeArchived, f);
    PageOfSorted(ordered, page, pageSize, ChatNewerFirst);
    assert forall c :: c in ordered ==> c in multiset(MatchingChats(chats, includeArchived, f));
  }

  // ---------------------------------------------------------------------------
  // One chat

  /** A ChatWithMessagesResponse. */
  datatype ChatDetail = ChatDetail(chat: Chat, messageCount: nat, messages: seq<Message>)

  /** get_chat: the chat with its messages in created_at order. */
  function GetChat(chats: seq<Chat>, messages: seq<Message>, id: ChatId): (r: Response<ChatDetail>)
    ensures r.Fail? <==> forall i :: 0 <= i < |chats| ==> chats[i].id != id
    ensures r.Fail? ==> r == ChatNotFound(id)
    ensures r.Ok? ==>
      && r.value.chat in chats && r.value.chat.id == id
      && SortedBy(r.value.messages, MessageBefore)
      && multiset(r.value.messages) == multiset(MessagesOf(messages, id))
      && r.value.messageCount == |r.value.messages|
  {
    match IndexOf(chats, ChatKey, id)
    case None => ChatNotFound(id)
    case Some(k) =>
      var history := History(messages, id);
      Ok(ChatDetail(chats[k], |history|, history))
  }

  /** The message count of get_chat is the number of the chat's messages. */
  lemma GetChatCountsMessages(chats: seq<Chat>, messages: seq<Message>, id: ChatId)
    requires GetChat(chats, messages, id).Ok?
    ensures GetChat(chats, messages, id).value.messageCount == MessageCount(messages, id)
  {
    var r := GetChat(chats, messages, id).value;
    assert |r.messages| == |multiset(r.messages)| == |multiset(MessagesOf(messages, id))|;
  }

  // ---------------------------------------------------------------------------
  // Creation

  /** The body create_chat reads. */
  datatype ChatCreate = ChatCreate(title: string, model: string, projectId: Option<ProjectId>, serverId: Option<ServerId>)

  predicate ProjectExists(projects: seq<Project>, id: ProjectId) {
    exists i :: 0 <= i < |projects| && projects[i].id == id
  }

  predicate ServerExists(servers: seq<OllamaServer>, id: ServerId) {
    exists i :: 0 <= i < |servers| && servers[i].id == id
  }

  /** A chat's foreign keys point at existing rows. */
  predicate ReferencesResolve(c: Chat, projects: seq<Project>, servers: seq<OllamaServer>) {
    && (c.projectId.Some? ==> ProjectExists(projects, c.projectId.value))
    && (c.serverId.Some? ==> ServerExists(servers, c.serverId.value))
  }

  /** The row create_chat inserts: unarchived, created and updated now. */
  function NewChat(id: ChatId, data: ChatCreate, now: Time): (c: Chat)
    ensures c.id == id && c.title == data.title && c.model == data.model && !c.isArchived
    ensures c.projectId == data.projectId && c.serverId == data.serverId && c.createdAt == now == c.updatedAt
  {
    Chat(id, data.title, data.model, false, data.projectId, data.serverId, now, now)
  }

  /** create_chat: a non-empty server id must name an existing server (an
      inactive one is accepted); a foreign key that resolves to nothing makes
      the insert fail; otherwise the chat is added unarchived with no
      messages. */
  method CreateChat(db: Database, id: ChatId, data: ChatCreate, now: Time) returns (r: Response<ChatSummary>)
    modifies db`chats
    ensures data.serverId.Some? && data.serverId.value != "" && !ServerExists(db.servers, data.serverId.value) ==>
      r == Fail(400, Detail("Ollama server with ID " + data.serverId.value + " not found"))
    ensures r.Fail? ==> db.chats == old(db.chats) && (r.status == 400 || r == Fail(500, Detail("Error creating chat")))
    ensures r.Ok? <==> ReferencesResolve(NewChat(id, data, now), db.projects, db.servers)
    ensures r.Ok? ==> r.value == ChatSummary(NewChat(id, data, now), 0) && db.chats == old(db.chats) + [r.value.chat]
  {
    if data.serverId.Some? && data.serverId.value != "" {
      if IndexOf(db.servers, ServerKey, data.serverId.value).None? {
        return Fail(400, Detail("Ollama server with ID " + data.serverId.value + " not found"));
      }
    }
    var chat := NewChat(id, data, now);
    if !ReferencesResolve(chat, db.projects, db.servers) {
      return Fail(500, Detail("Error creating chat"));
    }
    db.chats := db.chats + [chat];
    r := Ok(ChatSummary(chat, 0));
  }

  // ---------------------------------------------------------------------------
  // Patching, archiving, deleting

  /** A ChatUpdate body. */
  datatype ChatPatch = ChatPatch(title: Option<string>, model: Option<string>, isArchived: Option<bool>)

  function ApplyChatPatch(c: Chat, p: ChatPatch): (r: Chat)
    ensures r.title == p.title.GetOr(c.title)
    ensures r.model == p.model.GetOr(c.model)
    ensures r.isArchived == p.isArchived.GetOr(c.isArchived)
    ensures r.id == c.id && r.projectId == c.projectId && r.serverId == c.serverId
    ensures r.createdAt == c.createdAt && r.updatedAt == c.updatedAt
  {
    var c1 := if p.title.Some? then c.(title := p.title.value) else c;
    var c2 := if p.model.Some? then c1.(model := p.model.value) else c1;
    if p.isArchived.Some? then c2.(isArchived := p.isArchived.value) else c2
  }

  lemma ChatPatchIdempotent(c: Chat, p: ChatPatch)
    ensures ApplyChatPatch(ApplyChatPatch(c, p), p) == ApplyChatPatch(c, p)
    ensures ApplyChatPatch(c, ChatPatch(None, None, None)) == c
  {
  }

  /** update_chat: 404 for an unknown chat; otherwise the patch is applied. */
  method UpdateChat(db: Database, id: ChatId, patch: ChatPatch) returns (r: Response<ChatSummary>)
    modifies db`chats
    ensures (forall i :: 0 <= i < |old(db.chats)| ==> old(db.chats)[i].id != id) <==> r.Fail?
    ensures r.Fail? ==> r == ChatNotFound(id) && db.chats == old(db.chats)
    ensures r.Ok? ==>
      && (exists k :: 0 <= k < |old(db.chats)| && old(db.chats)[k].id == id
            && r.value.chat == ApplyChatPatch(old(db.chats)[k], patch)
            && db.chats == old(db.chats)[k := r.value.chat])
      && r.value.messageCount == MessageCount(db.messages, id)
  {
    var found := IndexOf(db.chats, ChatKey, id);
    if found.None? {
      return ChatNotFound(id);
    }
    var k := found.value;
    var chat := db.chats[k];
    if patch.title.Some? {
      chat := chat.(title := patch.title.value);
    }
    if patch.model.Some? {
      chat := chat.(model := patch.model.value);
    }
    if patch.isArchived.Some? {
      chat := chat.(isArchived := patch.isArchived.value);
    }
    db.chats := db.chats[k := chat];
    r := Ok(ChatSummary(chat, MessageCount(db.messages, id)));
  }

  /** archive_chat on the table: the chat found by id is marked archived. */
  function Archived(chats: seq<Chat>, id: ChatId): (r: seq<Chat>)
    ensures |r| == |chats|
    ensures match IndexOf(chats, ChatKey, id)
      case None => r == chats
      case Some(k) => r == chats[k := chats[k].(isArchived := true)]
  {
    match IndexOf(chats, ChatKey, id)
    case None => chats
    case Some(k) => chats[k := chats[k].(isArchived := true)]
  }

  /** Archiving twice is archiving once; it changes nothing but the flag. */
  lemma ArchiveIdempotent(chats: seq<Chat>, id: ChatId)
    ensures Archived(Archived(chats, id), id) == Archived(chats, id)
    ensures forall i :: 0 <= i < |chats| ==>
      Archived(chats, id)[i] == chats[i] || Archived(chats, id)[i] == chats[i].(isArchived := true)
  {
    match IndexOf(chats, ChatKey, id)
    case None =>
    case Some(k) =>
      var once := Archived(chats, id);
      assert forall i :: 0 <= i < |once| ==> once[i].id == chats[i].id;
      assert IndexOf(once, ChatKey, id) == Some(k);
  }

  method ArchiveChat(db: Database, id: ChatId) returns (r: Response<ChatSummary>)
    modifies db`chats
    ensures (forall i :: 0 <= i < |old(db.chats)| ==> old(db.chats)[i].id != id) <==> r.Fail?
    ensures r.Fail? ==> r == ChatNotFound(id)
    ensures db.chats == Archived(old(db.chats), id)
    ensures r.Ok? ==> r.value.chat.id == id && r.value.chat.isArchived && r.value.messageCount == MessageCount(db.messages, id)
    ensures r.Ok? ==>
      exists k :: 0 <= k < |old(db.chats)| && old(db.chats)[k].id == id
                  && r.value.chat == old(db.chats)[k].(isArchived := true) && db.chats[k] == r.value.chat
  {
    var found := IndexOf(db.chats, ChatKey, id);
    if found.None? {
      return ChatNotFound(id);
    }
    var chat := db.chats[found.value].(isArchived := true);
    db.chats := db.chats[found.value := chat];
    r := Ok(ChatSummary(chat, MessageCount(db.messages, id)));
  }

  /** delete_chat: the chat, its messages and its settings row go. */
  method DeleteChat(db: Database, id: ChatId) returns (r: Response<()>)
    modifies db`chats, db`messages, db`chatSettings
    ensures (forall i :: 0 <= i < |old(db.chats)| ==> old(db.chats)[i].id != id) <==> r.Fail?
    ensures r.Fail? ==>
      r == ChatNotFound(id) && db.chats == old(db.chats) && db.messages == old(db.messages)
      && db.chatSettings == old(db.chatSettings)
    ensures r.Ok? ==>
      && (exists k :: 0 <= k < |old(db.chats)| && old(db.chats)[k].id == id
            && db.chats == old(db.chats)[..k] + old(db.chats)[k + 1..])
      && db.messages == Filter(old(db.messages), (m: Message) => m.chatId != id)
      && db.chatSettings == Filter(old(db.chatSettings), (s: ChatSettings) => s.chatId != id)
  {
    var found := IndexOf(db.chats, ChatKey, id);
    if found.None? {
      return ChatNotFound(id);
    }
    var k := found.value;
    db.chats := db.chats[..k] + db.chats[k + 1..];
    db.messages := Filter(db.messages, (m: Message) => m.chatId != id);
    db.chatSettings := Filter(db.chatSettings, (s: ChatSettings) => s.chatId != id);
    r := Ok(());
  }
}
