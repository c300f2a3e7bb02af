/** Request shaping and response post-processing of OllamaService
    (backend/app/services/ollama_service.py). Every network exchange is an
    input: the probe result, the model listing, the chunks of a stream and the
    reply to the title request. */
module OllamaService {
  import opened Common
  import opened Strings
  import opened Store

  // ---------------------------------------------------------------------------
  // Errors

  /** OllamaConnectionError(url, detail) and OllamaModelNotFoundError(model). */
  datatype OllamaError = ConnectionError(url: string, detail: string) | ModelNotFound(model: string)

  /** str(e) of each error. */
  function ErrorText(e: OllamaError): (r: string)
    ensures e.ModelNotFound? ==> |r| >= 11 && OccursAt(r, "' not found", |r| - 11)
  {
    match e
    case ConnectionError(url, detail) => "Unable to connect to Ollama at " + url + ": " + detail
    case ModelNotFound(model) =>
      var t := "Ollama model '" + model + "' not found";
      assert t[|t| - 11..] == "' not found";
      t
  }

  /** True when the lower-cased error text names a missing model. */
  predicate NamesMissingModel(text: string) {
    Contains(Lower(text), "not found") || Contains(Lower(text), "does not exist")
  }

  /** The except-clause of chat, stream_chat and generate_chat_title: texts
      naming a missing model become ModelNotFound for the requested model,
      everything else a connection error carrying the text. */
  function ClassifyError(text: string, model: string, baseUrl: string): (r: OllamaError)
    ensures r.ModelNotFound? <==> NamesMissingModel(text)
    ensures r.ModelNotFound? ==> r.model == model
    ensures r.ConnectionError? ==> r.url == baseUrl && r.detail == text
  {
    if NamesMissingModel(text) then ModelNotFound(model) else ConnectionError(baseUrl, text)
  }

  /** Re-raising a ModelNotFound error through another except-clause keeps its kind. */
  lemma ModelNotFoundStable(missing: string, model: string, baseUrl: string)
    ensures ClassifyError(ErrorText(ModelNotFound(missing)), model, baseUrl) == ModelNotFound(model)
  {
    var t := ErrorText(ModelNotFound(missing));
    var k := |t| - 11;
    assert t == t[..k] + "' not found";
    LowerConcat(t[..k], "' not found");
    assert Lower("' not found") == "' not found";
    var low := Lower(t);
    assert low[k + 2..k + 11] == "not found";
    OccursContains(low, "not found", k + 2);
  }

  // ---------------------------------------------------------------------------
  // Probes and listings

  /** The outcome of probing a server: healthy, unhealthy with the reported
      error (possibly none), or an exception with its text; `connectionError`
      tells whether it was an OllamaConnectionError. */
  datatype Probe = Healthy | Unhealthy(error: Option<string>) | Raised(connectionError: bool, text: string)

  /** One entry of the model list; `name` is None when the entry has no name key. */
  datatype ModelEntry = ModelEntry(name: Option<string>)

  /** get_models: the list, or the OllamaConnectionError it raised. */
  datatype ModelListing = Listed(models: seq<ModelEntry>) | ListFailed(error: OllamaError)

  /** m.get("name", "") */
  function FullName(m: ModelEntry): string {
    m.name.GetOr("")
  }

  /** m.get("name", "").split(":")[0] */
  function BaseName(m: ModelEntry): (r: string)
    ensures StartsWith(FullName(m), r)
  {
    SplitFirstIsPrefix(FullName(m), ':');
    Split(FullName(m), ':')[0]
  }

  /** The test of check_model_exists: the name equals some model's base name or
      occurs in some model's full name. */
  function ModelExists(modelName: string, models: seq<ModelEntry>): bool {
    var baseNames := seq(|models|, i requires 0 <= i < |models| => BaseName(models[i]));
    modelName in baseNames || exists i :: 0 <= i < |models| && Contains(FullName(models[i]), modelName)
  }

  /** The base-name test adds nothing: a base name is a prefix, hence a substring. */
  lemma ModelExistsIffSubstring(modelName: string, models: seq<ModelEntry>)
    ensures ModelExists(modelName, models)
        <==> exists i :: 0 <= i < |models| && Contains(FullName(models[i]), modelName)
  {
    var baseNames := seq(|models|, i requires 0 <= i < |models| => BaseName(models[i]));
    if modelName in baseNames {
      var i :| 0 <= i < |models| && baseNames[i] == modelName;
      assert StartsWith(FullName(models[i]), modelName);
      OccursContains(FullName(models[i]), modelName, 0);
    }
  }

  datatype Outcome<T> = Done(value: T) | Failed(error: OllamaError)

  /** check_model_exists: a failed listing re-raises the very error get_models raised. */
  function CheckModelExists(modelName: string, listing: ModelListing): (r: Outcome<bool>)
    ensures listing.ListFailed? <==> r.Failed?
    ensures r.Failed? ==> r.error == listing.error
    ensures r.Done? ==> (r.value <==> exists i :: 0 <= i < |listing.models|
                                        && Contains(FullName(listing.models[i]), modelName))
  {
    match listing
    case ListFailed(e) => Failed(e)
    case Listed(models) =>
      ModelExistsIffSubstring(modelName, models);
      Done(ModelExists(modelName, models))
  }

  // ---------------------------------------------------------------------------
  // Request options

  datatype OptionValue = RealValue(r: real) | IntValue(i: int)

  /** The options dict of chat and stream_chat; an empty dict is sent as None.
      max_tokens travels as num_ctx. */
  method BuildOptions(temperature: Option<Temperature>, maxTokens: Option<int>)
    returns (options: Option<map<string, OptionValue>>)
    ensures options.None? <==> temperature.None? && maxTokens.None?
    ensures options.Some? ==> options.value.Keys <= {"temperature", "num_ctx"}
    ensures options.Some? ==> ("temperature" in options.value <==> temperature.Some?)
    ensures options.Some? ==> ("num_ctx" in options.value <==> maxTokens.Some?)
    ensures options.Some? && temperature.Some? ==> options.value["temperature"] == RealValue(temperature.value)
    ensures options.Some? && maxTokens.Some? ==> options.value["num_ctx"] == IntValue(maxTokens.value)
  {
    var opts: map<string, OptionValue> := map[];
    if temperature.Some? {
      opts := opts["temperature" := RealValue(temperature.value)];
    }
    if maxTokens.Some? {
      opts := opts["num_ctx" := IntValue(maxTokens.value)];
    }
    assert temperature.Some? ==> "temperature" in opts;
    assert maxTokens.Some? ==> "num_ctx" in opts;
    if opts == map[] {
      options := None;
    } else {
      options := Some(opts);
    }
  }

  /** The fixed options of the title request: a 2048-token context, at most
      50 tokens of reply, temperature 0.2. */
  const TitleOptions: map<string, OptionValue> :=
    map["num_ctx" := IntValue(2048), "num_predict" := IntValue(50), "temperature" := RealValue(0.2)]

  // ---------------------------------------------------------------------------
  // Streaming

  datatype ChunkMessage = ChunkMessage(content: Option<string>)

  /** A streamed chunk; `message` is None when the chunk has no "message" key,
      `content` is None when the message has no content. */
  datatype Chunk = Chunk(message: Option<ChunkMessage>)

  /** chunk["message"].get("content", ""), or "" for a chunk without a message. */
  function ChunkText(c: Chunk): string {
    if c.message.Some? then c.message.value.content.GetOr("") else ""
  }

  function ChunkTexts(chunks: seq<Chunk>): (r: seq<string>)
    ensures |r| == |chunks|
    ensures forall i :: 0 <= i < |chunks| ==> r[i] == ChunkText(chunks[i])
  {
    seq(|chunks|, i requires 0 <= i < |chunks| => ChunkText(chunks[i]))
  }

  /** What stream_chat yields for a sequence of chunks: their non-empty texts, in order. */
  function StreamPieces(chunks: seq<Chunk>): (r: seq<string>)
    ensures |r| <= |chunks|
    ensures forall k :: 0 <= k < |r| ==> r[k] != ""
  {
    if |chunks| == 0 then []
    else
      var t := ChunkText(chunks[|chunks| - 1]);
      StreamPieces(chunks[..|chunks| - 1]) + (if t != "" then [t] else [])
  }

  /** The pieces are exactly the non-empty chunk texts, each once, in chunk order. */
  lemma {:induction false} StreamPiecesAreNonEmptyTexts(chunks: seq<Chunk>)
    ensures StreamPieces(chunks) == Filter(ChunkTexts(chunks), (t: string) => t != "")
  {
    if |chunks| > 0 {
      var n := |chunks| - 1;
      StreamPiecesAreNonEmptyTexts(chunks[..n]);
      assert ChunkTexts(chunks) == ChunkTexts(chunks[..n]) + [ChunkText(chunks[n])];
      FilterSnoc(ChunkTexts(chunks[..n]), ChunkText(chunks[n]), (t: string) => t != "");
    }
  }

  /** Streaming two runs of chunks yields the pieces of the first run, then those of the second. */
  lemma {:induction false} StreamPiecesAppend(a: seq<Chunk>, b: seq<Chunk>)
    ensures StreamPieces(a + b) == StreamPieces(a) + StreamPieces(b)
  {
    if |b| > 0 {
      var n := |b| - 1;
      assert (a + b)[..|a + b| - 1] == a + b[..n];
      StreamPiecesAppend(a, b[..n]);
    } else {
      assert a + b == a;
    }
  }

  /** One chunk yields its text, unless that text is empty. */
  lemma StreamPiecesSingle(c: Chunk)
    ensures StreamPieces([c]) == if ChunkText(c) != "" then [ChunkText(c)] else []
  {
    assert [c][..0] == [];
  }

  /** Dropping the empty texts loses nothing of the streamed reply. */
  lemma {:induction false} StreamPiecesConcat(chunks: seq<Chunk>)
    ensures Concat(StreamPieces(chunks)) == Concat(ChunkTexts(chunks))
  {
    if |chunks| > 0 {
      var n := |chunks| - 1;
      var front := chunks[..n];
      StreamPiecesConcat(front);
      assert ChunkTexts(chunks)[..n] == ChunkTexts(front);
      var t := ChunkText(chunks[n]);
      if t != "" {
        assert (StreamPieces(front) + [t])[..|StreamPieces(front)|] == StreamPieces(front);
      } else {
        assert StreamPieces(chunks) == StreamPieces(front);
      }
    }
  }

  /** Every non-empty text appears: a chunk's text is a piece exactly when it is non-empty. */
  lemma {:induction false} StreamPiecesComplete(chunks: seq<Chunk>, i: nat)
    requires i < |chunks| && ChunkText(chunks[i]) != ""
    ensures ChunkText(chunks[i]) in StreamPieces(chunks)
  {
    var n := |chunks| - 1;
    if i < n {
      assert chunks[..n][i] == chunks[i];
      StreamPiecesComplete(chunks[..n], i);
    }
  }

  /** stream_chat: the options it sends, the pieces it yields, and the error it
      raises when the upstream stream fails (after the chunks it delivered). */
  method StreamChat(model: string, baseUrl: string, temperature: Option<Temperature>, maxTokens: Option<int>,
                    chunks: seq<Chunk>, failure: Option<string>)
    returns (options: Option<map<string, OptionValue>>, pieces: seq<string>, error: Option<OllamaError>)
    ensures options.None? <==> temperature.None? && maxTokens.None?
    ensures options.Some? ==> options.value.Keys <= {"temperature", "num_ctx"}
    ensures options.Some? ==> ("temperature" in options.value <==> temperature.Some?)
    ensures options.Some? ==> ("num_ctx" in options.value <==> maxTokens.Some?)
    ensures options.Some? && temperature.Some? ==> options.value["temperature"] == RealValue(temperature.value)
    ensures options.Some? && maxTokens.Some? ==> options.value["num_ctx"] == IntValue(maxTokens.value)
    ensures pieces == StreamPieces(chunks)
    ensures error.Some? <==> failure.Some?
    ensures failure.Some? ==> error.value == ClassifyError(failure.value, model, baseUrl)
  {
    options := BuildOptions(temperature, maxTokens);
    pieces := [];
    var i := 0;
    while i < |chunks|
      invariant 0 <= i <= |chunks|
      invariant pieces == StreamPieces(chunks[..i])
    {
      var chunk := chunks[i];
      if chunk.message.Some? {
        var content := chunk.message.value.content.GetOr("");
        if content != "" {
          pieces := pieces + [content];
        }
      }
      assert chunks[..i + 1][..i] == chunks[..i];
      i := i + 1;
    }
    assert chunks[..i] == chunks;
    error := if failure.Some? then Some(ClassifyError(failure.value, model, baseUrl)) else None;
  }

  // ---------------------------------------------------------------------------
  // Title generation

  datatype ChatMessage = ChatMessage(role: Role, content: string)

  const TitleRequest: string := "Generate a short title for this conversation."
  const FallbackTitle: string := "New Chat"
  const MaxTitleLength: nat := 50

  function Max(a: nat, b: nat): nat { if a >= b then a else b }
  function Min(a: nat, b: nat): nat { if a <= b then a else b }

  /** The turns added for round i: the i-th user text, then the i-th assistant text. */
  function Round(user: seq<string>, assistant: seq<string>, i: nat): seq<ChatMessage> {
    (if i < |user| then [ChatMessage(User, user[i])] else [])
    + (if i < |assistant| then [ChatMessage(Assistant, assistant[i])] else [])
  }

  /** The turns of rounds 0 .. n-1: each of the first n user texts and each
      of the first n assistant texts once. */
  function Interleaved(user: seq<string>, assistant: seq<string>, n: nat): (r: seq<ChatMessage>)
    ensures |r| == Min(n, |user|) + Min(n, |assistant|)
  {
    if n == 0 then [] else Interleaved(user, assistant, n - 1) + Round(user, assistant, n - 1)
  }

  /** The contents of the messages with the given role, in order. */
  function ContentsWithRole(msgs: seq<ChatMessage>, role: Role): seq<string> {
    if |msgs| == 0 then []
    else (if msgs[0].role == role then [msgs[0].content] else []) + ContentsWithRole(msgs[1..], role)
  }

  lemma {:induction false} ContentsWithRoleConcat(a: seq<ChatMessage>, b: seq<ChatMessage>, role: Role)
    ensures ContentsWithRole(a + b, role) == ContentsWithRole(a, role) + ContentsWithRole(b, role)
  {
    if |a| > 0 {
      assert (a + b)[1..] == a[1..] + b;
      ContentsWithRoleConcat(a[1..], b, role);
    } else {
      assert a + b == b;
    }
  }

  lemma ContentsWithRoleSingle(m: ChatMessage, role: Role)
    ensures ContentsWithRole([m], role) == if m.role == role then [m.content] else []
  {
    assert [m][1..] == [];
  }

  lemma RoundContents(user: seq<string>, assistant: seq<string>, i: nat, role: Role)
    ensures ContentsWithRole(Round(user, assistant, i), role)
         == (if i < |user| && role == User then [user[i]] else [])
          + (if i < |assistant| && role == Assistant then [assistant[i]] else [])
  {
    var u := if i < |user| then [ChatMessage(User, user[i])] else [];
    var a := if i < |assistant| then [ChatMessage(Assistant, assistant[i])] else [];
    assert Round(user, assistant, i) == u + a;
    ContentsWithRoleConcat(u, a, role);
    if i < |user| {
      ContentsWithRoleSingle(ChatMessage(User, user[i]), role);
    }
    if i < |assistant| {
      ContentsWithRoleSingle(ChatMessage(Assistant, assistant[i]), role);
    }
  }

  /** The texts of one role among the first n rounds. */
  function SideTexts(user: seq<string>, assistant: seq<string>, n: nat, role: Role): seq<string> {
    match role
    case User => user[..Min(n, |user|)]
    case Assistant => assistant[..Min(n, |assistant|)]
    case System => []
  }

  lemma SideTextsStep(user: seq<string>, assistant: seq<string>, n: nat, role: Role)
    requires n > 0
    ensures SideTexts(user, assistant, n, role)
         == SideTexts(user, assistant, n - 1, role)
          + (if n - 1 < |user| && role == User then [user[n - 1]] else [])
          + (if n - 1 < |assistant| && role == Assistant then [assistant[n - 1]] else [])
  {
    if role == User && n - 1 < |user| {
      assert user[..n] == user[..n - 1] + [user[n - 1]];
    }
    if role == Assistant && n - 1 < |assistant| {
      assert assistant[..n] == assistant[..n - 1] + [assistant[n - 1]];
    }
  }

  lemma InterleavedStep(user: seq<string>, assistant: seq<string>, n: nat, role: Role)
    requires n > 0
    ensures ContentsWithRole(Interleaved(user, assistant, n), role)
         == ContentsWithRole(Interleaved(user, assistant, n - 1), role)
          + (if n - 1 < |user| && role == User then [user[n - 1]] else [])
          + (if n - 1 < |assistant| && role == Assistant then [assistant[n - 1]] else [])
  {
    RoundContents(user, assistant, n - 1, role);
    ContentsWithRoleConcat(Interleaved(user, assistant, n - 1), Round(user, assistant, n - 1), role);
  }

  /** The interleaving keeps each side's texts, in order, and nothing else. */
  lemma {:induction false} InterleavedKeepsSides(user: seq<string>, assistant: seq<string>, n: nat, role: Role)
    ensures ContentsWithRole(Interleaved(user, assistant, n), role) == SideTexts(user, assistant, n, role)
  {
    if n > 0 {
      InterleavedKeepsSides(user, assistant, n - 1, role);
      InterleavedStep(user, assistant, n, role);
      SideTextsStep(user, assistant, n, role);
    }
  }

  /** While both sides last, the turns alternate user, assistant. */
  lemma {:induction false} InterleavedAlternates(user: seq<string>, assistant: seq<string>, n: nat)
    requires n <= |user| && n <= |assistant|
    ensures |Interleaved(user, assistant, n)| == 2 * n
    ensures forall k :: 0 <= k < n ==>
      Interleaved(user, assistant, n)[2 * k] == ChatMessage(User, user[k]) &&
      Interleaved(user, assistant, n)[2 * k + 1] == ChatMessage(Assistant, assistant[k])
  {
    if n > 0 {
      InterleavedAlternates(user, assistant, n - 1);
    }
  }

  /** The message list generate_chat_title sends: the system prompt, the
      interleaved conversation, then the fixed title request. */
  method BuildTitleMessages(systemPrompt: string, user: seq<string>, assistant: seq<string>)
    returns (messages: seq<ChatMessage>)
    ensures messages == [ChatMessage(System, systemPrompt)]
                        + Interleaved(user, assistant, Max(|user|, |assistant|))
                        + [ChatMessage(User, TitleRequest)]
    ensures |messages| == 2 + |user| + |assistant|
  {
    messages := [ChatMessage(System, systemPrompt)];
    var i := 0;
    while i < Max(|user|, |assistant|)
      invariant 0 <= i <= Max(|user|, |assistant|)
      invariant messages == [ChatMessage(System, systemPrompt)] + Interleaved(user, assistant, i)
    {
      if i < |user| {
        messages := messages + [ChatMessage(User, user[i])];
      }
      if i < |assistant| {
        messages := messages + [ChatMessage(Assistant, assistant[i])];
      }
      i := i + 1;
    }
    messages := messages + [ChatMessage(User, TitleRequest)];
  }

  /** The post-processing of the reply: strip; an empty reply gives "New Chat";
      otherwise quotes are removed, newlines become spaces, the result is
      stripped and, past 50 characters, cut to 50 and stripped again. */
  function CleanTitle(raw: string): (r: string)
    ensures Strip(raw) == [] ==> r == FallbackTitle
    ensures Strip(raw) != [] ==> '"' !in r && '\'' !in r && '\n' !in r
    ensures Stripped(r) && |r| <= MaxTitleLength
  {
    var title := Strip(raw);
    if title == [] then
      FallbackTitleClean();
      FallbackTitle
    else
      CleanedFacts(title);
      CutTitle(Cleaned(title))
  }

  lemma FallbackTitleClean()
    ensures Stripped(FallbackTitle) && |FallbackTitle| <= MaxTitleLength
  {
    assert FallbackTitle[0] == 'N' && FallbackTitle[|FallbackTitle| - 1] == 't';
  }

  /** Quotes removed, newlines turned into spaces, then stripped. */
  function Cleaned(title: string): string {
    Strip(ReplaceChar(RemoveChar(RemoveChar(title, '"'), '\''), '\n', ' '))
  }

  /** Past 50 characters the title is cut to 50 and stripped again. */
  function CutTitle(cleaned: string): string {
    if |cleaned| > MaxTitleLength then Strip(Take(cleaned, MaxTitleLength)) else cleaned
  }

  lemma CleanedFacts(title: string)
    ensures var r := CutTitle(Cleaned(title));
      '"' !in r && '\'' !in r && '\n' !in r && Stripped(r) && |r| <= MaxTitleLength
  {
    var unquoted := RemoveChar(RemoveChar(title, '"'), '\'');
    var joined := ReplaceChar(unquoted, '\n', ' ');
    var cleaned := Strip(joined);
    assert cleaned == Cleaned(title);
    CleanChars(title, unquoted, joined, cleaned);
    if |cleaned| > MaxTitleLength {
      var cut := Take(cleaned, MaxTitleLength);
      assert forall c :: c in cut ==> c in cleaned;
    }
  }

  lemma CleanChars(title: string, unquoted: string, joined: string, cleaned: string)
    requires unquoted == RemoveChar(RemoveChar(title, '"'), '\'')
    requires joined == ReplaceChar(unquoted, '\n', ' ')
    requires cleaned == Strip(joined)
    ensures '"' !in cleaned && '\'' !in cleaned && '\n' !in cleaned
  {
    var noDouble := RemoveChar(title, '"');
    assert '\'' !in unquoted && '"' !in noDouble;
    assert '"' !in unquoted;
    assert '\n' !in joined && '"' !in joined && '\'' !in joined;
  }

  /** A title that is already clean comes back unchanged. */
  lemma CleanTitleFixesCleanTitles(t: string)
    requires t != [] && Stripped(t) && |t| <= MaxTitleLength
    requires '"' !in t && '\'' !in t && '\n' !in t
    ensures CleanTitle(t) == t
  {
    StrippedStrip(t);
  }

  /** Cleaning is idempotent on every title it can return except the empty one
      (a reply made only of quotes). */
  lemma CleanTitleIdempotent(raw: string)
    requires CleanTitle(raw) != []
    ensures CleanTitle(CleanTitle(raw)) == CleanTitle(raw)
  {
    CleanTitleFixesCleanTitles(CleanTitle(raw));
  }

  /** The reply to the title request: the message content (None when the reply
      has no content), or the text of the exception the call raised. */
  datatype TitleReply = Replied(content: Option<string>) | CallFailed(text: string)

  /** generate_chat_title: the messages it sends, and the cleaned title or the
      classified error, reported against the title model. */
  method GenerateChatTitle(systemPrompt: string, user: seq<string>, assistant: seq<string>,
                           reply: TitleReply, titleModel: string, baseUrl: string)
    returns (messages: seq<ChatMessage>, options: map<string, OptionValue>, result: Outcome<string>)
    ensures messages == [ChatMessage(System, systemPrompt)]
                        + Interleaved(user, assistant, Max(|user|, |assistant|))
                        + [ChatMessage(User, TitleRequest)]
    ensures |messages| == 2 + |user| + |assistant|
    ensures options == TitleOptions
    ensures reply.Replied? ==> result == Done(CleanTitle(reply.content.GetOr("")))
    ensures reply.CallFailed? ==> result == Failed(ClassifyError(reply.text, titleModel, baseUrl))
  {
    messages := BuildTitleMessages(systemPrompt, user, assistant);
    options := TitleOptions;
    match reply
    case Replied(content) =>
      result := Done(CleanTitle(content.GetOr("")));
    case CallFailed(text) =>
      result := Failed(ClassifyError(text, titleModel, baseUrl));
  }
}
