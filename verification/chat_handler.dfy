/**
 * `handlers/chat_handler.go`: the HTTP handlers for sending a chat message
 * and reading history. The services the handler calls are parameters: a
 * service the handler was not given is `None`, and a service call is a
 * value or a function from its varying arguments to its result.
 */
module ChatHandler {
  import opened Base
  import opened Models
  import GoStrings
  import Strconv
  import ChatService
  import UserService
  import Hub

  /** A JSON error reply: HTTP status and error code. */
  datatype Reply = Reply(status: int, code: string)

  /** The decoded `SendMessageRequest`. */
  datatype SendRequest = SendRequest(ConversationID: Uuid, Content: string)

  /**
   * The request's `binding` tags: `required` on the conversation ID (the
   * nil UUID is its zero value) and `required,min=1,max=4000` on the
   * content, counted in characters.
   */
  predicate SendBinds(req: SendRequest) {
    req.ConversationID != NilUuid && req.Content != "" && 1 <= GoStrings.RuneCount(req.Content) <= 4000
  }

  /** How `SendMessage` ends. */
  datatype SendReply =
    | Refused(reply: Reply)
    | Answered(userMessage: ChatMessage, assistantMessage: Option<ChatMessage>, response: string)
      /** `SendToUser` met a closed mailbox: the send on a closed channel panics the request. */
    | HubPanicked

  /** The preference used when there is no user service: the defaults, with no user ID. */
  function FallbackPreference(): (p: UserPreference)
    ensures p.ContextWindow == 10 && p.MemoryEnabled && p.SystemPrompt == ""
  {
    UserPreference(NilUuid, "gpt-3.5-turbo", 2000, "", 10, true)
  }

  /** The inline default agrees with the service's default preference, but for the user ID. */
  lemma FallbackIsServiceDefault(userID: Uuid)
    ensures FallbackPreference() == UserService.DefaultPreference(userID).(UserID := NilUuid)
  {
  }

  /**
   * The preference the handler works with: the looked-up one, or the
   * fallback when there is no user service (`None`) or the lookup fails.
   */
  function ResolvePreference(lookup: Option<Result<UserPreference>>): (p: UserPreference)
    ensures lookup.Some? && lookup.value.Ok? ==> p == lookup.value.value
    ensures !(lookup.Some? && lookup.value.Ok?) ==> p.ContextWindow == 10 && p.MemoryEnabled && p == FallbackPreference()
  {
    if lookup.Some? && lookup.value.Ok? then lookup.value.value else FallbackPreference()
  }

  /** The context sent to the model: the recent messages, or only the new message when they cannot be read. */
  function ContextOrFallback(recent: Result<seq<ChatMessage>>, userMessage: ChatMessage): (ctx: seq<ChatMessage>)
    ensures recent.Err? ==> ctx == [userMessage]
    ensures recent.Ok? ==> ctx == recent.value
  {
    if recent.Ok? then recent.value else [userMessage]
  }

  /**
   * The memories consulted: none unless memory is enabled and a Chroma
   * service exists; a failed search yields none.
   */
  function MemoriesUsed(pref: UserPreference, search: Option<Result<seq<string>>>): (m: seq<string>)
    ensures !pref.MemoryEnabled || search.None? ==> m == []
    ensures pref.MemoryEnabled && search.Some? && search.value.Ok? ==> m == search.value.value
    ensures search.Some? && search.value.Err? ==> m == []
  {
    if pref.MemoryEnabled && search.Some? && search.value.Ok? then search.value.value else []
  }

  /** `"相关记忆："` followed by the memories, one per line. */
  function MemoryPrompt(memories: seq<string>): string {
    "相关记忆：" + GoStrings.Join(memories, "\n")
  }

  /**
   * The system prompt after the memory merge: unchanged without memories,
   * else the memory prompt, after a blank line when there was a prompt.
   */
  function MergeMemory(systemPrompt: string, memories: seq<string>): (r: string)
    ensures memories == [] ==> r == systemPrompt
    ensures memories != [] && systemPrompt != "" ==> r == systemPrompt + "\n\n" + MemoryPrompt(memories)
    ensures memories != [] && systemPrompt == "" ==> r == MemoryPrompt(memories)
  {
    if |memories| > 0 then
      if systemPrompt != "" then systemPrompt + "\n\n" + MemoryPrompt(memories) else MemoryPrompt(memories)
    else systemPrompt
  }

  /** The user's own prompt always survives the merge, at the front; the memories go at the end. */
  lemma MergeMemoryKeepsPrompt(systemPrompt: string, memories: seq<string>)
    ensures GoStrings.HasPrefix(MergeMemory(systemPrompt, memories), systemPrompt)
    ensures memories != [] ==> var r := MergeMemory(systemPrompt, memories);
      |r| >= |MemoryPrompt(memories)| && r[|r| - |MemoryPrompt(memories)|..] == MemoryPrompt(memories)
  {
    var r := MergeMemory(systemPrompt, memories);
    if memories != [] && systemPrompt != "" {
      assert r == (systemPrompt + "\n\n") + MemoryPrompt(memories);
      assert r[..|systemPrompt|] == systemPrompt;
    }
  }

  /**
   * `SendMessage`. `user` is what `GetUserFromContext` found and `request`
   * the decoded body (`None` when it is not JSON of the request's shape);
   * a decoded body that breaks a `binding` tag is refused like one that
   * does not decode. `save(content, role)` stores
   * a message of this user in the request's conversation; `preference` is
   * the preference lookup (`None`: no user service); `recent(window)` reads
   * the conversation's latest messages; `search` is the memory search
   * (`None`: no Chroma service); `generate` asks the language model;
   * `hubOutcome` is what `SendToUser` did (`None`: no hub). Storing the
   * assistant reply, adding memories and notifying the hub only log their
   * failures.
   */
  method SendMessage(user: Option<User>, request: Option<SendRequest>,
                     save: (string, string) -> Result<ChatMessage>,
                     preference: Option<Result<UserPreference>>,
                     recent: int -> Result<seq<ChatMessage>>,
                     search: Option<Result<seq<string>>>,
                     generate: (seq<ChatMessage>, UserPreference) -> Result<string>,
                     hubOutcome: Option<Hub.SendOutcome>)
    returns (reply: SendReply)
    ensures user.None? ==> reply == Refused(Reply(401, "INVALID_AUTH"))
    ensures user.Some? && (request.None? || !SendBinds(request.value)) ==> reply == Refused(Reply(400, "INVALID_REQUEST"))
    ensures user.Some? && request.Some? && SendBinds(request.value) && GoStrings.TrimSpace(request.value.Content) == "" ==>
      reply == Refused(Reply(400, "EMPTY_MESSAGE"))
    ensures user.Some? && request.Some? && SendBinds(request.value) && GoStrings.TrimSpace(request.value.Content) != "" ==>
      var saved := save(GoStrings.TrimSpace(request.value.Content), "user");
      saved.Err? ==> reply == Refused(Reply(500, "MESSAGE_SAVE_FAILED"))
    ensures user.Some? && request.Some? && SendBinds(request.value) && GoStrings.TrimSpace(request.value.Content) != "" ==>
      var saved := save(GoStrings.TrimSpace(request.value.Content), "user");
      var base := ResolvePreference(preference);
      var pref := base.(SystemPrompt := MergeMemory(base.SystemPrompt, MemoriesUsed(base, search)));
      saved.Ok? ==>
        var response := generate(ContextOrFallback(recent(base.ContextWindow), saved.value), pref);
        && (response.Err? ==> reply == Refused(Reply(500, "AI_SERVICE_ERROR")))
        && (response.Ok? && hubOutcome.Some? && hubOutcome.value.Panicked? ==> reply == HubPanicked)
        && (response.Ok? && !(hubOutcome.Some? && hubOutcome.value.Panicked?) ==>
             var stored := save(response.value, "assistant");
             reply == Answered(saved.value, if stored.Ok? then Some(stored.value) else None, response.value))
  {
    if user.None? {
      return Refused(Reply(401, "INVALID_AUTH"));
    }
    if request.None? || !SendBinds(request.value) {
      return Refused(Reply(400, "INVALID_REQUEST"));
    }
    var req := request.value;
    req := req.(Content := GoStrings.TrimSpace(req.Content));
    if req.Content == "" {
      return Refused(Reply(400, "EMPTY_MESSAGE"));
    }
    var userMessage := save(req.Content, "user");
    if userMessage.Err? {
      return Refused(Reply(500, "MESSAGE_SAVE_FAILED"));
    }
    reply := Answer(userMessage.value, save, preference, recent, search, generate, hubOutcome);
  }

  /**
   * The rest of `SendMessage` once the user's message is stored: build
   * the context and the system prompt, ask the model, store its answer
   * and notify the hub.
   */
  method Answer(userMessage: ChatMessage, save: (string, string) -> Result<ChatMessage>,
                preference: Option<Result<UserPreference>>,
                recent: int -> Result<seq<ChatMessage>>,
                search: Option<Result<seq<string>>>,
                generate: (seq<ChatMessage>, UserPreference) -> Result<string>,
                hubOutcome: Option<Hub.SendOutcome>)
    returns (reply: SendReply)
    ensures var base := ResolvePreference(preference);
      var pref := base.(SystemPrompt := MergeMemory(base.SystemPrompt, MemoriesUsed(base, search)));
      var response := generate(ContextOrFallback(recent(base.ContextWindow), userMessage), pref);
      && (response.Err? ==> reply == Refused(Reply(500, "AI_SERVICE_ERROR")))
      && (response.Ok? && hubOutcome.Some? && hubOutcome.value.Panicked? ==> reply == HubPanicked)
      && (response.Ok? && !(hubOutcome.Some? && hubOutcome.value.Panicked?) ==>
           var stored := save(response.value, "assistant");
           reply == Answered(userMessage, if stored.Ok? then Some(stored.value) else None, response.value))
  {
    var userPreference := ResolvePreference(preference);
    var contextMessages := ContextOrFallback(recent(userPreference.ContextWindow), userMessage);
    var memoryContext: seq<string> := [];
    if userPreference.MemoryEnabled && search.Some? {
      if search.value.Ok? {
        memoryContext := search.value.value;
      }
    }
    if |memoryContext| > 0 {
      var memoryPrompt := MemoryPrompt(memoryContext);
      if userPreference.SystemPrompt != "" {
        userPreference := userPreference.(SystemPrompt := userPreference.SystemPrompt + "\n\n" + memoryPrompt);
      } else {
        userPreference := userPreference.(SystemPrompt := memoryPrompt);
      }
    }
    var response := generate(contextMessages, userPreference);
    if response.Err? {
      return Refused(Reply(500, "AI_SERVICE_ERROR"));
    }
    var assistantMessage := save(response.value, "assistant");
    if hubOutcome.Some? && hubOutcome.value.Panicked? {
      return HubPanicked;
    }
    reply := Answered(userMessage,
                      if assistantMessage.Ok? then Some(assistantMessage.value) else None,
                      response.value);
  }

  /** `c.DefaultQuery`: the parameter's value when present, even if empty, else the default. */
  function DefaultQuery(param: Option<string>, default: string): (r: string)
    ensures param.Some? ==> r == param.value
    ensures param.None? ==> r == default
  {
    if param.Some? then param.value else default
  }

  /** The handler's limit rule: an integer in `1..max`, else 50. */
  function QueryLimit(param: Option<string>, max: nat): (limit: nat)
    requires max >= 50
    ensures 1 <= limit <= max
    ensures var p := Strconv.Atoi(DefaultQuery(param, "50"));
      limit == if p.Ok? && 1 <= p.value <= max then p.value else 50
  {
    match Strconv.Atoi(DefaultQuery(param, "50"))
    case Ok(n) => if n <= 0 || n > max then 50 else n
    case Err(_) => 50
  }

  /** The handler's offset rule: a non-negative integer, else 0. */
  function QueryOffset(param: Option<string>): (offset: nat)
    ensures var p := Strconv.Atoi(DefaultQuery(param, "0"));
      offset == if p.Ok? && p.value >= 0 then p.value else 0
  {
    match Strconv.Atoi(DefaultQuery(param, "0"))
    case Ok(n) => if n < 0 then 0 else n
    case Err(_) => 0
  }

  /** Without query parameters the handlers ask for 50 rows from the start. */
  lemma MissingParamsDefaults()
    ensures QueryLimit(None, 100) == 50 && QueryLimit(None, 200) == 50 && QueryOffset(None) == 0
  {
    assert Strconv.DecimalValue("5") == 5;
    assert "50"[..1] == "5";
    assert Strconv.DecimalValue("50") == 50;
    assert Strconv.DecimalValue("0") == 0;
  }

  /** A limit the handler lets through passes the service's own clamp unchanged. */
  lemma HandlerLimitsSurviveService(limit: Option<string>, offset: Option<string>)
    ensures ChatService.HistoryLimit(QueryLimit(limit, 100)) == QueryLimit(limit, 100)
    ensures ChatService.ConversationLimit(QueryLimit(limit, 200)) == QueryLimit(limit, 200)
    ensures ChatService.ConversationOffset(QueryOffset(offset)) == QueryOffset(offset)
  {
  }

  /** The success body of `GetChatHistory` and `GetOneConversationHistory`. */
  datatype HistoryReply =
    | HistoryRefused(reply: Reply)
    | History(messages: seq<ChatMessage>, limit: nat, offset: nat)

  /**
   * `GetChatHistory`: clamps the query parameters and reads the page from
   * the chat service. `rows` are the user's messages newest first.
   */
  method GetChatHistory(user: Option<User>, limitParam: Option<string>, offsetParam: Option<string>,
                        rows: seq<ChatMessage>, queryError: Option<string>)
    returns (reply: HistoryReply)
    ensures user.None? ==> reply == HistoryRefused(Reply(401, "INVALID_AUTH"))
    ensures user.Some? && queryError.Some? ==> reply == HistoryRefused(Reply(500, "HISTORY_FETCH_FAILED"))
    ensures user.Some? && queryError.None? ==>
      var limit, offset := QueryLimit(limitParam, 100), QueryOffset(offsetParam);
      reply == History(ChatService.Reversed(ChatService.Page(rows, limit, offset)), limit, offset)
  {
    if user.None? {
      return HistoryRefused(Reply(401, "INVALID_AUTH"));
    }
    var limit := QueryLimit(limitParam, 100);
    var offset := QueryOffset(offsetParam);
    var messages := ChatService.GetChatHistory(rows, queryError, limit, offset);
    if messages.Err? {
      return HistoryRefused(Reply(500, "HISTORY_FETCH_FAILED"));
    }
    return History(messages.value, limit, offset);
  }

  /**
   * `GetOneConversationHistory`. `conversationID` is the parsed path
   * parameter (`None` when it is not a UUID); `rows` are the
   * conversation's messages oldest first. The error replies of this
   * handler carry no code.
   */
  function GetOneConversationHistory(user: Option<User>, conversationID: Option<Uuid>,
                                     limitParam: Option<string>, offsetParam: Option<string>,
                                     rows: seq<ChatMessage>, queryError: Option<string>): (reply: HistoryReply)
    ensures user.None? ==> reply == HistoryRefused(Reply(401, ""))
    ensures user.Some? && conversationID.None? ==> reply == HistoryRefused(Reply(400, ""))
    ensures user.Some? && conversationID.Some? && queryError.Some? ==> reply == HistoryRefused(Reply(500, ""))
    ensures user.Some? && conversationID.Some? && queryError.None? ==>
      var limit, offset := QueryLimit(limitParam, 200), QueryOffset(offsetParam);
      reply == History(ChatService.Page(rows, limit, offset), limit, offset)
    ensures reply.History? ==> (1 <= reply.limit <= 200 && |reply.messages| <= reply.limit
      && reply.messages == ChatService.Page(rows, QueryLimit(limitParam, 200), QueryOffset(offsetParam)))
  {
    if user.None? then HistoryRefused(Reply(401, ""))
    else if conversationID.None? then HistoryRefused(Reply(400, ""))
    else
      var limit, offset := QueryLimit(limitParam, 200), QueryOffset(offsetParam);
      match ChatService.GetOneConversationHistory(rows, queryError, limit, offset)
      case Err(_) => HistoryRefused(Reply(500, ""))
      case Ok(messages) => History(messages, limit, offset)
  }
}
