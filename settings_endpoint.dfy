/** The settings endpoints (backend/app/api/v1/endpoints/settings.py): the
    single global row and the per-chat overrides, both created on first use
    and patched field by field. */
module SettingsEndpoint {
  import opened Common
  import opened Store

  // ---------------------------------------------------------------------------
  // Global settings

  /** The table's check constraints on the single row. */
  predicate ValidGlobal(s: GlobalSettings) {
    && s.id == 1
    && 0.0 <= s.defaultTemperature <= 2.0
    && s.defaultMaxTokens > 0
    && s.numCtx > 0
    && (s.theme == "dark" || s.theme == "light")
  }

  /** A SettingsUpdate body; None means the field is absent or null. */
  datatype GlobalPatch = GlobalPatch(
    defaultModel: Option<string>, summarizationModel: Option<string>,
    defaultTemperature: Option<Temperature>, defaultMaxTokens: Option<int>,
    numCtx: Option<int>, theme: Option<string>)

  /** The bounds SettingsUpdate (backend/app/schemas/settings.py) puts on the
      supplied fields; a body outside them is refused with 422 before the
      endpoint runs. */
  predicate ValidGlobalPatch(p: GlobalPatch) {
    && (p.defaultModel.Some? ==> 1 <= |p.defaultModel.value| <= 100)
    && (p.summarizationModel.Some? ==> 1 <= |p.summarizationModel.value| <= 100)
    && (p.defaultTemperature.Some? ==> 0.0 <= p.defaultTemperature.value <= 2.0)
    && (p.defaultMaxTokens.Some? ==> p.defaultMaxTokens.value > 0)
    && (p.numCtx.Some? ==> p.numCtx.value > 0)
    && (p.theme.Some? ==> p.theme.value == "dark" || p.theme.value == "light")
  }

  /** The row created when none exists; the models come from the configuration. */
  function DefaultGlobalSettings(defaultModel: string, titleModel: string): (r: GlobalSettings)
    ensures ValidGlobal(r)
    ensures r.defaultModel == defaultModel && r.summarizationModel == titleModel
    ensures r.defaultTemperature == 0.7 && r.defaultMaxTokens == 2048 && r.numCtx == 2048 && r.theme == "dark"
  {
    GlobalSettings(1, defaultModel, titleModel, 0.7, 2048, 2048, "dark")
  }

  /** The row after a patch: each field is the supplied value, or kept. */
  function ApplyGlobalPatch(s: GlobalSettings, p: GlobalPatch): (r: GlobalSettings)
    ensures r.id == s.id
    ensures r.defaultModel == p.defaultModel.GetOr(s.defaultModel)
    ensures r.summarizationModel == p.summarizationModel.GetOr(s.summarizationModel)
    ensures r.defaultTemperature == p.defaultTemperature.GetOr(s.defaultTemperature)
    ensures r.defaultMaxTokens == p.defaultMaxTokens.GetOr(s.defaultMaxTokens)
    ensures r.numCtx == p.numCtx.GetOr(s.numCtx)
    ensures r.theme == p.theme.GetOr(s.theme)
  {
    var s1 := if p.defaultModel.Some? then s.(defaultModel := p.defaultModel.value) else s;
    var s2 := if p.summarizationModel.Some? then s1.(summarizationModel := p.summarizationModel.value) else s1;
    var s3 := if p.defaultTemperature.Some? then s2.(defaultTemperature := p.defaultTemperature.value) else s2;
    var s4 := if p.defaultMaxTokens.Some? then s3.(defaultMaxTokens := p.defaultMaxTokens.value) else s3;
    var s5 := if p.numCtx.Some? then s4.(numCtx := p.numCtx.value) else s4;
    if p.theme.Some? then s5.(theme := p.theme.value) else s5
  }

  /** The empty patch changes nothing. */
  function NoGlobalChange(): GlobalPatch {
    GlobalPatch(None, None, None, None, None, None)
  }

  lemma GlobalPatchFacts(s: GlobalSettings, p: GlobalPatch)
    ensures ApplyGlobalPatch(ApplyGlobalPatch(s, p), p) == ApplyGlobalPatch(s, p)
    ensures ApplyGlobalPatch(s, NoGlobalChange()) == s
    ensures ValidGlobal(s) && ValidGlobalPatch(p) ==> ValidGlobal(ApplyGlobalPatch(s, p))
  {
  }

  /** A field differs after the patch only if the patch supplies it. */
  lemma GlobalPatchChangesOnlySupplied(s: GlobalSettings, p: GlobalPatch)
    ensures ApplyGlobalPatch(s, p).defaultModel != s.defaultModel ==> p.defaultModel.Some?
    ensures ApplyGlobalPatch(s, p).summarizationModel != s.summarizationModel ==> p.summarizationModel.Some?
    ensures ApplyGlobalPatch(s, p).defaultTemperature != s.defaultTemperature ==> p.defaultTemperature.Some?
    ensures ApplyGlobalPatch(s, p).defaultMaxTokens != s.defaultMaxTokens ==> p.defaultMaxTokens.Some?
    ensures ApplyGlobalPatch(s, p).numCtx != s.numCtx ==> p.numCtx.Some?
    ensures ApplyGlobalPatch(s, p).theme != s.theme ==> p.theme.Some?
  {
  }

  /** get_global_settings: the stored row, created with the defaults when missing. */
  method GetGlobalSettings(db: Database, defaultModel: string, titleModel: string) returns (r: GlobalSettings)
    modifies db`globalSettings
    ensures old(db.globalSettings).Some? ==> r == old(db.globalSettings).value && db.globalSettings == old(db.globalSettings)
    ensures old(db.globalSettings).None? ==>
      r == DefaultGlobalSettings(defaultModel, titleModel) && db.globalSettings == Some(r)
  {
    if db.globalSettings.None? {
      db.globalSettings := Some(DefaultGlobalSettings(defaultModel, titleModel));
    }
    r := db.globalSettings.value;
  }

  /** update_global_settings: the patch applied to the stored or default row. */
  method UpdateGlobalSettings(db: Database, defaultModel: string, titleModel: string, patch: GlobalPatch)
    returns (r: GlobalSettings)
    requires ValidGlobalPatch(patch)
    modifies db`globalSettings
    ensures r == ApplyGlobalPatch(old(db.globalSettings).GetOr(DefaultGlobalSettings(defaultModel, titleModel)), patch)
    ensures db.globalSettings == Some(r)
    ensures old(db.globalSettings).None? || ValidGlobal(old(db.globalSettings).value) ==> ValidGlobal(r)
  {
    GlobalPatchFacts(db.globalSettings.GetOr(DefaultGlobalSettings(defaultModel, titleModel)), patch);
    var settings := db.globalSettings.GetOr(DefaultGlobalSettings(defaultModel, titleModel));
    if patch.defaultModel.Some? {
      settings := settings.(defaultModel := patch.defaultModel.value);
    }
    if patch.summarizationModel.Some? {
      settings := settings.(summarizationModel := patch.summarizationModel.value);
    }
    if patch.defaultTemperature.Some? {
      settings := settings.(defaultTemperature := patch.defaultTemperature.value);
    }
    if patch.defaultMaxTokens.Some? {
      settings := settings.(defaultMaxTokens := patch.defaultMaxTokens.value);
    }
    if patch.numCtx.Some? {
      settings := settings.(numCtx := patch.numCtx.value);
    }
    if patch.theme.Some? {
      settings := settings.(theme := patch.theme.value);
    }
    db.globalSettings := Some(settings);
    r := settings;
  }

  // ---------------------------------------------------------------------------
  // Per-chat settings

  /** A ChatSettingsUpdate body. */
  datatype ChatPatch = ChatPatch(temperature: Option<Temperature>, maxTokens: Option<int>, systemPrompt: Option<string>)

  /** The bounds ChatSettingsBase puts on the overrides, both on a body
      (422 otherwise) and on what the endpoints store. */
  predicate ValidChatPatch(p: ChatPatch) {
    && (p.temperature.Some? ==> 0.0 <= p.temperature.value <= 2.0)
    && (p.maxTokens.Some? ==> p.maxTokens.value > 0)
  }

  predicate ValidChatSettings(s: ChatSettings) {
    && (s.temperature.Some? ==> 0.0 <= s.temperature.value <= 2.0)
    && (s.maxTokens.Some? ==> s.maxTokens.value > 0)
  }

  predicate AllValidChatSettings(rows: seq<ChatSettings>) {
    forall i :: 0 <= i < |rows| ==> ValidChatSettings(rows[i])
  }

  /** The row created for a chat without one: every override null. */
  function EmptyChatSettings(chatId: ChatId): (r: ChatSettings)
    ensures r.chatId == chatId && r.temperature.None? && r.maxTokens.None? && r.systemPrompt.None?
  {
    ChatSettings(chatId, None, None, None)
  }

  function ApplyChatPatch(s: ChatSettings, p: ChatPatch): (r: ChatSettings)
    ensures r.chatId == s.chatId
    ensures r.temperature == (if p.temperature.Some? then p.temperature else s.temperature)
    ensures r.maxTokens == (if p.maxTokens.Some? then p.maxTokens else s.maxTokens)
    ensures r.systemPrompt == (if p.systemPrompt.Some? then p.systemPrompt else s.systemPrompt)
  {
    var s1 := if p.temperature.Some? then s.(temperature := p.temperature) else s;
    var s2 := if p.maxTokens.Some? then s1.(maxTokens := p.maxTokens) else s1;
    if p.systemPrompt.Some? then s2.(systemPrompt := p.systemPrompt) else s2
  }

  /** A patch never resets an override to null, and applying it twice is
      applying it once. */
  lemma ChatPatchFacts(s: ChatSettings, p: ChatPatch)
    ensures s.temperature.Some? ==> ApplyChatPatch(s, p).temperature.Some?
    ensures s.maxTokens.Some? ==> ApplyChatPatch(s, p).maxTokens.Some?
    ensures s.systemPrompt.Some? ==> ApplyChatPatch(s, p).systemPrompt.Some?
    ensures ApplyChatPatch(ApplyChatPatch(s, p), p) == ApplyChatPatch(s, p)
  {
  }

  /** No chat has two settings rows (chat_id is the primary key). */
  predicate OneRowPerChat(rows: seq<ChatSettings>) {
    forall i, j :: 0 <= i < j < |rows| ==> rows[i].chatId != rows[j].chatId
  }


  /** The settings table after get-or-create and a patch, with the row returned. */
  function PatchChatSettings(rows: seq<ChatSettings>, chatId: ChatId, p: ChatPatch): (r: (seq<ChatSettings>, ChatSettings))
    ensures r.1.chatId == chatId
    ensures match IndexOf(rows, ChatSettingsKey, chatId)
      case None => r.1 == ApplyChatPatch(EmptyChatSettings(chatId), p) && r.0 == rows + [r.1]
      case Some(k) => r.1 == ApplyChatPatch(rows[k], p) && r.0 == rows[k := r.1]
    ensures OneRowPerChat(rows) ==> OneRowPerChat(r.0)
    ensures AllValidChatSettings(rows) && ValidChatPatch(p) ==> AllValidChatSettings(r.0)
  {
    match IndexOf(rows, ChatSettingsKey, chatId)
    case None =>
      var row := ApplyChatPatch(EmptyChatSettings(chatId), p);
      var rows' := rows + [row];
      assert forall j :: 0 <= j < |rows| ==> rows'[j] == rows[j];
      (rows', row)
    case Some(k) =>
      var row := ApplyChatPatch(rows[k], p);
      (rows[k := row], row)
  }

  /** get_chat_settings: 404 for an unknown chat; otherwise its row, created
      empty when missing. */
  method GetChatSettings(db: Database, chatId: ChatId) returns (r: Response<ChatSettings>)
    modifies db`chatSettings
    ensures !ChatExists(old(db.chats), chatId) ==>
      r == ChatNotFound(chatId) && db.chatSettings == old(db.chatSettings)
    ensures ChatExists(old(db.chats), chatId) ==>
      r.Ok? && r.value.chatId == chatId
      && match IndexOf(old(db.chatSettings), ChatSettingsKey, chatId)
         case None => r.value == EmptyChatSettings(chatId) && db.chatSettings == old(db.chatSettings) + [r.value]
         case Some(k) => r.value == old(db.chatSettings)[k] && db.chatSettings == old(db.chatSettings)
  {
    if IndexOf(db.chats, ChatKey, chatId).None? {
      return ChatNotFound(chatId);
    }
    var found := IndexOf(db.chatSettings, ChatSettingsKey, chatId);
    if found.Some? {
      return Ok(db.chatSettings[found.value]);
    }
    var row := EmptyChatSettings(chatId);
    db.chatSettings := db.chatSettings + [row];
    r := Ok(row);
  }

  /** update_chat_settings: 404 for an unknown chat; otherwise the patch is
      applied to its row, created empty when missing. */
  method UpdateChatSettings(db: Database, chatId: ChatId, patch: ChatPatch) returns (r: Response<ChatSettings>)
    requires ValidChatPatch(patch)
    modifies db`chatSettings
    ensures !ChatExists(old(db.chats), chatId) ==>
      r == ChatNotFound(chatId) && db.chatSettings == old(db.chatSettings)
    ensures ChatExists(old(db.chats), chatId) ==>
      r == Ok(PatchChatSettings(old(db.chatSettings), chatId, patch).1)
      && db.chatSettings == PatchChatSettings(old(db.chatSettings), chatId, patch).0
    ensures AllValidChatSettings(old(db.chatSettings)) ==> AllValidChatSettings(db.chatSettings)
  {
    if IndexOf(db.chats, ChatKey, chatId).None? {
      return ChatNotFound(chatId);
    }
    var found := IndexOf(db.chatSettings, ChatSettingsKey, chatId);
    var row := if found.Some? then db.chatSettings[found.value] else EmptyChatSettings(chatId);
    if patch.temperature.Some? {
      row := row.(temperature := patch.temperature);
    }
    if patch.maxTokens.Some? {
      row := row.(maxTokens := patch.maxTokens);
    }
    if patch.systemPrompt.Some? {
      row := row.(systemPrompt := patch.systemPrompt);
    }
    if found.Some? {
      db.chatSettings := db.chatSettings[found.value := row];
    } else {
      db.chatSettings := db.chatSettings + [row];
    }
    r := Ok(row);
  }
}
