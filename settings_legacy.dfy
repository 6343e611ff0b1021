/** The earlier settings store: prompts, active id, model list and selected model, without
    quick slots. Its model fetch goes through the bare client initializer and builds the
    models request by hand. The prompt-list operations are those of `Settings`. */
module LegacySettings {

  import opened Wrappers
  import opened Osaurus
  import opened LegacyOsaurus
  import opened Settings

  const ModelsComponent: string := "/v1/models"

  /** The legacy models request: a GET to the appended `/v1/models` component carrying
      only `Authorization`, and only when a key is configured. */
  function LegacyModelsRequest(client: Client, env: Environment): (req: Request)
    ensures req.verb == "GET" && req.url == AppendingPathComponent(client.baseUrl, ModelsComponent)
    ensures req.headers.Keys <= {"Authorization"}
    ensures "Authorization" in req.headers <==> env.apiKey.Some? && env.apiKey.value != ""
    ensures "Authorization" in req.headers ==> req.headers["Authorization"] == "Bearer " + env.apiKey.value
    ensures req.body == NoBody
  {
    Request(AppendingPathComponent(client.baseUrl, ModelsComponent), "GET", WithAuthorization(map[], env), NoBody)
  }

  /** Against a base URL without a path the legacy models request goes to the same URL as
      the current one; it differs only in lacking `Content-Type`. */
  lemma LegacyModelsUrlAgrees(client: Client, env: Environment)
    requires client.baseUrl.path == ""
    ensures LegacyModelsRequest(client, env).url == ModelsRequest(client, env).url
    ensures "Content-Type" in ModelsRequest(client, env).headers
    ensures "Content-Type" !in LegacyModelsRequest(client, env).headers
  {
    assert "/" <= ModelsComponent;
    assert ModelsPath[0] == 'v';
    assert "/" + ModelsPath == ModelsComponent;
  }

  /** The legacy fetch's response check: anything but an HTTP 2xx is `httpError` with the
      status, and with 0 when the response is not HTTP at all. */
  function LegacyListModels(reply: Reply<ModelsResponse>): (r: Result<seq<OsaurusModel>, OsaurusError>)
    ensures reply.Unreachable? ==> r == Failure(TransportFailed)
    ensures reply.NotHttp? ==> r == Failure(HttpError(0))
    ensures reply.Http? && !IsSuccessStatus(reply.status) ==> r == Failure(HttpError(reply.status))
    ensures reply.Http? && IsSuccessStatus(reply.status) ==>
      r == (if reply.body.Some? then Success(reply.body.value.data) else Failure(DecodingFailed))
  {
    match reply
    case Unreachable => Failure(TransportFailed)
    case NotHttp => Failure(HttpError(0))
    case Http(status, body) =>
      if !IsSuccessStatus(status) then Failure(HttpError(status))
      else if body.None? then Failure(DecodingFailed)
      else Success(body.value.data)
  }

  /** The two fetches read a reply the same way except for a non-HTTP response, which the
      current client reports as `invalidResponse` and the legacy one as `httpError(0)`. */
  lemma LegacyListModelsAgrees(reply: Reply<ModelsResponse>)
    ensures !reply.NotHttp? ==> LegacyListModels(reply) == ListModels(reply)
    ensures reply.NotHttp? ==> ListModels(reply) == Failure(InvalidResponse) && LegacyListModels(reply) == Failure(HttpError(0))
  {
  }

  /** What UserDefaults holds for the legacy store. */
  datatype LegacySavedSettings = LegacySavedSettings(
    prompts: Option<seq<SystemPrompt>>,
    activePromptId: Option<PromptId>,
    selectedModel: Option<string>)

  class LegacySettingsManager {
    var availableModels: seq<OsaurusModel>
    var selectedModelId: string
    var systemPrompts: seq<SystemPrompt>
    var activePromptId: Option<PromptId>
    var isLoadingModels: bool
    var modelsFetchError: Option<OsaurusError>
    /** Source of fresh prompt ids, above every id in the list. */
    var nextId: PromptId

    predicate Valid()
      reads this
    {
      forall p :: p in systemPrompts ==> p.id < nextId
    }

    /** `init()`: load, then seed a single active default prompt carrying the legacy default
        system prompt when no prompt was loaded. */
    constructor (saved: LegacySavedSettings)
      ensures Valid()
      ensures systemPrompts != []
      ensures saved.prompts.Some? && saved.prompts.value != [] ==>
        systemPrompts == saved.prompts.value && activePromptId == saved.activePromptId
      ensures !(saved.prompts.Some? && saved.prompts.value != []) ==>
        |systemPrompts| == 1 && systemPrompts[0].isDefault && systemPrompts[0].name == DefaultPromptName &&
        systemPrompts[0].content == LegacySystemPrompt && activePromptId == Some(systemPrompts[0].id)
      ensures (saved.prompts.Some? ==> DistinctIds(saved.prompts.value)) ==> DistinctIds(systemPrompts)
      ensures selectedModelId == saved.selectedModel.GetOr(DefaultModel)
      ensures availableModels == [] && !isLoadingModels && modelsFetchError.None?
    {
      availableModels := [];
      isLoadingModels := false;
      modelsFetchError := None;
      selectedModelId := saved.selectedModel.GetOr(DefaultModel);
      var prompts := if saved.prompts.Some? then saved.prompts.value else [];
      var freeId := NextFreeId(prompts);
      if prompts == [] {
        systemPrompts := [SystemPrompt(freeId, DefaultPromptName, LegacySystemPrompt, true)];
        activePromptId := Some(freeId);
        nextId := freeId + 1;
      } else {
        systemPrompts := prompts;
        activePromptId := saved.activePromptId;
        nextId := freeId;
      }
    }

    /** `activePrompt`: the first prompt whose id is the active id. */
    function ActivePrompt(): (r: Option<SystemPrompt>)
      reads this
      ensures r.Some? ==> r.value in systemPrompts && Some(r.value.id) == activePromptId
      ensures r.None? <==> (activePromptId.None? ||
        forall j :: 0 <= j < |systemPrompts| ==> systemPrompts[j].id != activePromptId.value)
    {
      FirstWithId(systemPrompts, activePromptId)
    }

    /** `addPrompt`: one new non-default prompt, with a fresh id, at the end. */
    method AddPrompt(name: string, content: string)
      requires Valid()
      modifies this
      ensures Valid()
      ensures systemPrompts == old(systemPrompts) + [SystemPrompt(old(nextId), name, content, false)]
      ensures forall p :: p in old(systemPrompts) ==> p.id != old(nextId)
      ensures DistinctIds(old(systemPrompts)) ==> DistinctIds(systemPrompts)
      ensures activePromptId == old(activePromptId)
      ensures availableModels == old(availableModels) && selectedModelId == old(selectedModelId)
      ensures isLoadingModels == old(isLoadingModels) && modelsFetchError == old(modelsFetchError)
    {
      systemPrompts := systemPrompts + [SystemPrompt(nextId, name, content, false)];
      nextId := nextId + 1;
    }

    /** `updatePrompt`: the name and content of the first prompt with the id; nothing for
        an unknown id. */
    method UpdatePrompt(id: PromptId, name: string, content: string)
      requires Valid()
      modifies this
      ensures Valid()
      ensures FirstIndexOf(old(systemPrompts), id).None? ==> systemPrompts == old(systemPrompts)
      ensures FirstIndexOf(old(systemPrompts), id).Some? ==>
        var i := FirstIndexOf(old(systemPrompts), id).value;
        systemPrompts == old(systemPrompts)[i := old(systemPrompts)[i].(name := name, content := content)]
      ensures DistinctIds(old(systemPrompts)) ==> DistinctIds(systemPrompts)
      ensures activePromptId == old(activePromptId) && nextId == old(nextId)
      ensures availableModels == old(availableModels) && selectedModelId == old(selectedModelId)
      ensures isLoadingModels == old(isLoadingModels) && modelsFetchError == old(modelsFetchError)
    {
      match FirstIndexOf(systemPrompts, id)
      case None =>
      case Some(i) =>
        systemPrompts := systemPrompts[i := systemPrompts[i].(name := name, content := content)];
    }

    /** `deletePrompt`: nothing for an unknown id or a default prompt; otherwise every
        prompt with the id goes, and a deleted active id moves on. */
    method DeletePrompt(id: PromptId)
      requires Valid()
      modifies this
      ensures Valid()
      ensures !Deletable(old(systemPrompts), id) ==>
        systemPrompts == old(systemPrompts) && activePromptId == old(activePromptId)
      ensures Deletable(old(systemPrompts), id) ==>
        && systemPrompts == WithoutId(old(systemPrompts), id)
        && activePromptId == ActiveAfterDelete(old(activePromptId), id, systemPrompts)
      ensures forall p :: p in systemPrompts ==> p in old(systemPrompts)
      ensures Deletable(old(systemPrompts), id) ==> forall p :: p in systemPrompts ==> p.id != id
      ensures DistinctIds(old(systemPrompts)) ==> DistinctIds(systemPrompts)
      ensures DistinctIds(old(systemPrompts)) ==>
        forall p :: p in old(systemPrompts) && p.isDefault ==> p in systemPrompts
      ensures nextId == old(nextId)
      ensures availableModels == old(availableModels) && selectedModelId == old(selectedModelId)
      ensures isLoadingModels == old(isLoadingModels) && modelsFetchError == old(modelsFetchError)
    {
      var prompt := FirstWithId(systemPrompts, Some(id));
      if prompt.None? || prompt.value.isDefault {
        return;
      }
      WithoutIdKeepsOthers(systemPrompts, id);
      if DistinctIds(systemPrompts) {
        DeletionSparesDefaults(systemPrompts, id);
        WithoutIdKeepsDistinct(systemPrompts, id);
      }
      systemPrompts := WithoutId(systemPrompts, id);
      activePromptId := ActiveAfterDelete(activePromptId, id, systemPrompts);
    }

    /** `setActivePrompt`, which does not check that the id exists. */
    method SetActivePrompt(id: PromptId)
      modifies this
      ensures activePromptId == Some(id)
      ensures systemPrompts == old(systemPrompts) && nextId == old(nextId)
      ensures availableModels == old(availableModels) && selectedModelId == old(selectedModelId)
      ensures isLoadingModels == old(isLoadingModels) && modelsFetchError == old(modelsFetchError)
    {
      activePromptId := Some(id);
    }

    /** `selectModel`. */
    method SelectModel(modelId: string)
      modifies this
      ensures selectedModelId == modelId
      ensures systemPrompts == old(systemPrompts) && activePromptId == old(activePromptId)
      ensures availableModels == old(availableModels) && nextId == old(nextId)
      ensures isLoadingModels == old(isLoadingModels) && modelsFetchError == old(modelsFetchError)
    {
      selectedModelId := modelId;
    }

    /** `fetchAvailableModels()`: the bare initializer (which does not fail), the legacy
        models request, and the legacy response check. On success the list is stored
        sorted and a selection the list lacks moves to the first model; on failure the
        list and selection stay and the error is recorded. `request` is what was sent. */
    method FetchAvailableModels(env: Environment, parsers: Parsers, reply: Reply<ModelsResponse>)
      returns (request: Request)
      requires Valid()
      modifies this
      ensures Valid()
      ensures request == LegacyModelsRequest(Init(None, env, parsers), env)
      ensures !isLoadingModels
      ensures modelsFetchError.Some? <==> LegacyListModels(reply).Failure?
      ensures modelsFetchError.Some? ==> modelsFetchError.value == LegacyListModels(reply).error
      ensures modelsFetchError.Some? ==>
        availableModels == old(availableModels) && selectedModelId == old(selectedModelId)
      ensures modelsFetchError.None? ==>
        && availableModels == SortModels(LegacyListModels(reply).value)
        && selectedModelId == SelectionAfterFetch(availableModels, old(selectedModelId))
      ensures systemPrompts == old(systemPrompts) && activePromptId == old(activePromptId) && nextId == old(nextId)
    {
      isLoadingModels := true;
      modelsFetchError := None;
      var client := Init(None, env, parsers);
      request := LegacyModelsRequest(client, env);
      var models := LegacyListModels(reply);
      if models.Failure? {
        modelsFetchError := Some(models.error);
      } else {
        availableModels := SortModels(models.value);
        selectedModelId := SelectionAfterFetch(availableModels, selectedModelId);
      }
      isLoadingModels := false;
    }
  }
}
