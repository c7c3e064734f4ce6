/**
 * `services/llm_service.go`: assembling a Gemini `generateContent` request
 * from the conversation context and extracting the reply. The HTTP round
 * trip is a function from the request contents to what came back; the API
 * URL is the configured `LLM_API_URL`.
 */
module LLMService {
  import opened Base
  import opened Models
  import Strconv
  import Config

  datatype Part = Part(text: string)

  /** One entry of `contents`: its parts and its role. */
  datatype Content = Content(parts: seq<Part>, role: string)

  datatype Candidate = Candidate(content: Content)

  /** The decoded response: its candidates and, when the API reported one, the error message. */
  datatype ChatResponse = ChatResponse(candidates: seq<Candidate>, apiError: Option<string>)

  /** What the HTTP round trip gave: a transport error, or a status and the outcome of decoding the body. */
  datatype Transport = Unreachable(error: string) | Received(status: int, body: Result<ChatResponse>)

  const DefaultSystemPrompt := "你是一个智能助手，请提供准确、有用的信息和帮助。请用中文回复。"

  /** The preference's prompt when it has one, else the built-in prompt. */
  function SystemPrompt(pref: UserPreference): (r: string)
    ensures pref.SystemPrompt != "" ==> r == pref.SystemPrompt
    ensures pref.SystemPrompt == "" ==> r == DefaultSystemPrompt
  {
    if pref.SystemPrompt != "" then pref.SystemPrompt else DefaultSystemPrompt
  }

  /** A stored message as a request entry: its content as the only part, its role kept. */
  function AsContent(m: ChatMessage): Content {
    Content([Part(m.Content)], m.Role)
  }

  /**
   * The request contents: when the first message is the user's, the system
   * prompt is put in front of its text; otherwise the prompt is dropped.
   */
  function RequestContents(messages: seq<ChatMessage>, systemPrompt: string): seq<Content> {
    if messages != [] && messages[0].Role == "user" then
      [Content([Part(systemPrompt + "\n\n" + messages[0].Content)], "user")]
        + seq(|messages| - 1, i requires 0 <= i < |messages| - 1 => AsContent(messages[i + 1]))
    else seq(|messages|, i requires 0 <= i < |messages| => AsContent(messages[i]))
  }

  /** One entry per message, in order; only a leading user message is altered. */
  lemma RequestContentsShape(messages: seq<ChatMessage>, systemPrompt: string)
    ensures var r := RequestContents(messages, systemPrompt);
      && |r| == |messages|
      && (forall i :: 0 < i < |messages| ==> r[i] == AsContent(messages[i]))
      && (messages != [] && messages[0].Role == "user" ==>
            r[0] == Content([Part(systemPrompt + "\n\n" + messages[0].Content)], "user"))
      && (messages != [] && messages[0].Role != "user" ==> r[0] == AsContent(messages[0]))
  {
  }

  /**
   * The assembly loop: the merged first entry, if any, then one entry per
   * remaining message, appended in order.
   */
  method BuildContents(messages: seq<ChatMessage>, systemPrompt: string) returns (contents: seq<Content>)
    ensures contents == RequestContents(messages, systemPrompt)
  {
    contents := [];
    var rest := messages;
    if |rest| > 0 {
      var first := rest[0];
      if first.Role == "user" {
        contents := contents + [Content([Part(systemPrompt + "\n\n" + first.Content)], "user")];
        rest := rest[1..];
      }
    }
    var skipped := |messages| - |rest|;
    for i := 0 to |rest|
      invariant |contents| == skipped + i
      invariant skipped == 1 ==> contents[0] == Content([Part(systemPrompt + "\n\n" + messages[0].Content)], "user")
      invariant forall k :: skipped <= k < skipped + i ==> contents[k] == AsContent(messages[k])
    {
      contents := contents + [AsContent(rest[i])];
    }
    RequestContentsShape(messages, systemPrompt);
  }

  /** Response extraction: the first candidate's first part, unless the API erred or said nothing. */
  function ExtractResponse(response: ChatResponse): (r: Result<string>)
    ensures response.apiError.Some? ==> r == Err("LLM API错误: " + response.apiError.value)
    ensures response.apiError.None? && (response.candidates == [] || response.candidates[0].content.parts == []) ==>
      r == Err("LLM API未返回任何回复")
    ensures r.Ok? <==> (response.apiError.None? && response.candidates != []
      && response.candidates[0].content.parts != [] && response.candidates[0].content.parts[0].text != "")
    ensures r.Ok? ==> r.value == response.candidates[0].content.parts[0].text && r.value != ""
  {
    if response.apiError.Some? then Err("LLM API错误: " + response.apiError.value)
    else if |response.candidates| == 0 || |response.candidates[0].content.parts| == 0 then Err("LLM API未返回任何回复")
    else
      var content := response.candidates[0].content.parts[0].text;
      if content == "" then Err("LLM API返回的回复为空") else Ok(content)
  }

  /** The outcome of the round trip: transport failures, non-200 statuses and undecodable bodies first. */
  function Interpret(reply: Transport): (r: Result<string>)
    ensures reply.Unreachable? ==> r == Err("LLM API请求失败: " + reply.error)
    ensures reply.Received? && reply.status != 200 ==> r == Err("LLM API 返回错误状态码: " + Strconv.Itoa(reply.status))
    ensures reply.Received? && reply.status == 200 && reply.body.Err? ==> r == Err("响应解析失败: " + reply.body.error)
    ensures reply.Received? && reply.status == 200 && reply.body.Ok? ==> r == ExtractResponse(reply.body.value)
    ensures r.Ok? ==> r.value != ""
  {
    match reply
    case Unreachable(e) => Err("LLM API请求失败: " + e)
    case Received(status, body) =>
      if status != 200 then Err("LLM API 返回错误状态码: " + Strconv.Itoa(status))
      else match body
        case Err(e) => Err("响应解析失败: " + e)
        case Ok(response) => ExtractResponse(response)
  }

  /**
   * `GenerateResponse`. `cfg` is the loaded configuration; `post` performs
   * the request with the given contents.
   */
  method GenerateResponse(messages: seq<ChatMessage>, pref: UserPreference, cfg: Config.Settings,
                          post: seq<Content> -> Transport)
    returns (r: Result<string>)
    ensures messages == [] ==> r == Err("传入的消息列表为空，无法生成回复")
    ensures messages != [] && cfg.LLMAPIURL == "" ==> r == Err("未配置LLM API URL")
    ensures messages != [] && cfg.LLMAPIURL != "" ==>
      r == Interpret(post(RequestContents(messages, SystemPrompt(pref))))
    ensures r.Ok? ==> r.value != ""
  {
    if |messages| == 0 {
      return Err("传入的消息列表为空，无法生成回复");
    }
    if cfg.LLMAPIURL == "" {
      return Err("未配置LLM API URL");
    }
    var contents := BuildContents(messages, SystemPrompt(pref));
    r := Interpret(post(contents));
  }

  /** `ValidateAPIConfig`: only an empty API URL is refused. */
  function ValidateAPIConfig(cfg: Config.Settings): (err: Option<string>)
    ensures err.Some? <==> cfg.LLMAPIURL == ""
  {
    if cfg.LLMAPIURL == "" then Some("LLM_API_URL 未配置") else None
  }

  /** `GetSupportedModels`: the fixed list. */
  function GetSupportedModels(): (models: seq<string>)
    ensures |models| == 7 && models[0] == "gpt-3.5-turbo"
  {
    ["gpt-3.5-turbo", "gpt-4", "gpt-4-turbo-preview", "claude-3-sonnet-20240229",
     "claude-3-opus-20240229", "gemini-pro", "text-davinci-003"]
  }

  /**
   * The default preference's model is in the list, but the model the
   * configuration names by default is not.
   */
  lemma DefaultModels()
    ensures "gpt-3.5-turbo" in GetSupportedModels()
    ensures "gemini-2.0-flash" !in GetSupportedModels()
  {
  }
}
