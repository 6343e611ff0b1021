/** The earlier, flat copy of the Osaurus client: the same base-URL precedence, response
    checks and line reader, but each request builds its URL by appending a path component
    and sets its headers by hand, and the default system prompt differs. */
module LegacyOsaurus {

  import opened Wrappers
  import opened Osaurus

  const LegacySystemPrompt: string :=
    "You are Osaurus Tweak. Improve the user's copied text for clarity and tone. Preserve meaning and formatting. Output only the revised text without any preface."

  const CompletionsComponent: string := "/v1/chat/completions"

  /** `baseURL.appendingPathComponent(component)`: the component follows the base path,
      with one slash between them. */
  function AppendingPathComponent(base: Url, component: string): (u: Url)
    ensures u.scheme == base.scheme && u.host == base.host && u.port == base.port
    ensures base.path <= u.path
    ensures u.path ==
      (if base.path != [] && base.path[|base.path| - 1] == '/' then base.path else base.path + "/") +
      (if "/" <= component then component[1..] else component)
  {
    var p := base.path;
    if p != [] && p[|p| - 1] == '/' && "/" <= component then
      base.(path := p + component[1..])
    else if (p != [] && p[|p| - 1] == '/') || "/" <= component then
      base.(path := p + component)
    else
      base.(path := p + "/" + component)
  }

  /** The `Authorization` header when `OSAURUS_API_KEY` is set and non-empty. */
  function WithAuthorization(headers: map<string, string>, env: Environment): map<string, string> {
    if env.apiKey.Some? && env.apiKey.value != "" then headers["Authorization" := "Bearer " + env.apiKey.value]
    else headers
  }

  /** The request the legacy `create` sends: a POST with `Content-Type` and, when a key is
      configured, `Authorization`. */
  function LegacyCompletionRequest(client: Client, env: Environment, model: string, messages: seq<ChatMessage>)
    : (req: Request)
    ensures req.verb == "POST" && req.url == AppendingPathComponent(client.baseUrl, CompletionsComponent)
    ensures req.headers.Keys <= {"Content-Type", "Authorization"}
    ensures "Content-Type" in req.headers && req.headers["Content-Type"] == "application/json"
    ensures "Authorization" in req.headers <==> env.apiKey.Some? && env.apiKey.value != ""
    ensures "Authorization" in req.headers ==> req.headers["Authorization"] == "Bearer " + env.apiKey.value
    ensures req.body == Completion(model, messages)
  {
    var headers := WithAuthorization(map["Content-Type" := "application/json"], env);
    Request(AppendingPathComponent(client.baseUrl, CompletionsComponent), "POST", headers, Completion(model, messages))
  }

  /** The request the legacy `createStream` sends: additionally `Accept: text/event-stream`
      and `stream: true`. */
  function LegacyStreamRequest(client: Client, env: Environment, model: string, messages: seq<ChatMessage>)
    : (req: Request)
    ensures req.verb == "POST" && req.url == AppendingPathComponent(client.baseUrl, CompletionsComponent)
    ensures req.headers.Keys <= {"Content-Type", "Accept", "Authorization"}
    ensures "Content-Type" in req.headers && req.headers["Content-Type"] == "application/json"
    ensures "Accept" in req.headers && req.headers["Accept"] == EventStream
    ensures "Authorization" in req.headers <==> env.apiKey.Some? && env.apiKey.value != ""
    ensures "Authorization" in req.headers ==> req.headers["Authorization"] == "Bearer " + env.apiKey.value
    ensures req.body == StreamingCompletion(model, messages, true)
  {
    var headers := WithAuthorization(map["Content-Type" := "application/json", "Accept" := EventStream], env);
    Request(AppendingPathComponent(client.baseUrl, CompletionsComponent), "POST", headers,
      StreamingCompletion(model, messages, true))
  }

  /** Against a base URL without a path, which is what the initializer's default and an
      instance's own address produce, both ways of building the URL agree. */
  lemma LegacyUrlAgrees(base: Url)
    requires base.path == ""
    ensures AppendingPathComponent(base, CompletionsComponent) == Endpoint(base, CompletionsPath)
  {
    assert "/" <= CompletionsComponent;
    assert CompletionsPath[0] == 'v';
    assert "/" + CompletionsPath == CompletionsComponent;
  }

  /** Against such a base URL the legacy completion request is exactly the current one. */
  lemma LegacyCompletionAgrees(client: Client, env: Environment, model: string, messages: seq<ChatMessage>)
    requires client.baseUrl.path == ""
    ensures LegacyCompletionRequest(client, env, model, messages) == CompletionRequest(client, env, model, messages)
  {
    LegacyUrlAgrees(client.baseUrl);
  }

  /** Against such a base URL the legacy streaming request is exactly the current one. */
  lemma LegacyStreamAgrees(client: Client, env: Environment, model: string, messages: seq<ChatMessage>)
    requires client.baseUrl.path == ""
    ensures LegacyStreamRequest(client, env, model, messages) == StreamRequest(client, env, model, messages)
  {
    LegacyUrlAgrees(client.baseUrl);
    var h := map["Content-Type" := "application/json", "Accept" := EventStream];
    assert h == map["Content-Type" := "application/json"]["Accept" := EventStream];
  }

  /** The legacy `tweak` request: the same conversation as the current one. */
  function LegacyTweakRequest(client: Client, env: Environment, text: string, model: string, systemPrompt: string)
    : (req: Request)
    ensures req.body.Completion? && req.body.model == model
    ensures req.body.messages == TweakRequest(client, env, text, model, systemPrompt).body.messages
  {
    LegacyCompletionRequest(client, env, model, TweakMessages(systemPrompt, text))
  }

  /** The legacy `tweakStream` request: the same conversation, streamed. */
  function LegacyTweakStreamRequest(client: Client, env: Environment, text: string, model: string, systemPrompt: string)
    : (req: Request)
    ensures req.body.StreamingCompletion? && req.body.stream
    ensures req.body.messages == LegacyTweakRequest(client, env, text, model, systemPrompt).body.messages
  {
    LegacyStreamRequest(client, env, model, TweakMessages(systemPrompt, text))
  }
}
