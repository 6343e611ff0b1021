/** The client SDK for the local Osaurus inference server: instance discovery from the
    shared configuration directory, base-URL precedence, request construction, status
    validation, the OpenAI-compatible event-stream line reader, the `tweak` facade and the
    model display name.

    Foundation is taken as inputs: the directory scan is a list of per-directory
    observations, `URL(string:)` and `ISO8601DateFormatter` are the functions of a
    `Parsers` value, JSON decoding results are `Option`s, and every network exchange is the
    reply value the session produced. */
module Osaurus {

  import opened Wrappers
  import opened Strings

  // =======================================================================================
  // Errors, URLs, environment

  /** `OsaurusError`, plus the two Foundation errors that propagate through the SDK
      unchanged: a failed `JSONDecoder` decode of a response body and a `URLSession`
      transport error. */
  datatype OsaurusError =
    | DiscoveryFailed
    | InvalidResponse
    | HttpError(status: int)
    | DecodingFailed
    | TransportFailed

  /** A URL by its components: `scheme://host[:port]path`. */
  datatype Url = Url(scheme: string, host: string, port: Option<nat>, path: string)

  /** Seconds relative to Foundation's reference date. */
  type Timestamp = int

  /** `Date.distantPast` (the first instant of year 1). */
  const DistantPast: Timestamp := -63114076800

  /** The process environment variables the SDK consults: `OSAURUS_BASE_URL` and
      `OSAURUS_API_KEY`. */
  datatype Environment = Environment(baseUrl: Option<string>, apiKey: Option<string>)

  /** Foundation's parsers: `URL(string:)` and `ISO8601DateFormatter().date(from:)`. */
  datatype Parsers = Parsers(url: string -> Option<Url>, date: string -> Option<Timestamp>)

  /** `http://localhost:1337`, the bare initializer's fallback. */
  const LocalDefault: Url := Url("http", "localhost", Some(1337), "")

  const DefaultModel: string := "llama-3.2-3b-instruct-4bit"
  const DefaultSystemPrompt: string :=
    "Improve the provided text for clarity and tone. Preserve meaning and formatting. Output only the revised text."

  // =======================================================================================
  // Discovery

  /** The decoded `configuration.json` of one instance. Ports are natural numbers here, so
      a descriptor with a negative `port` is outside the model. */
  datatype SharedConfiguration = SharedConfiguration(
    instanceId: string,
    updatedAt: string,
    health: string,
    port: Option<nat>,
    address: Option<string>,
    url: Option<string>,
    exposeToNetwork: Option<bool>)

  datatype Instance = Instance(
    instanceId: string,
    updatedAt: Timestamp,
    address: string,
    port: nat,
    url: Url,
    exposeToNetwork: bool)

  /** What the scan observes about one entry of `SharedConfiguration/`: whether it is a
      directory, whether it holds `configuration.json`, that file read and decoded (`None`
      when reading or decoding throws) and the directory's modification date. */
  datatype InstanceDir = InstanceDir(
    isDirectory: bool,
    hasConfigurationFile: bool,
    configuration: Option<SharedConfiguration>,
    modificationDate: Option<Timestamp>)

  /** The eligibility filter: running, with both an address and a port. */
  predicate Eligible(cfg: SharedConfiguration) {
    cfg.health == "running" && cfg.address.Some? && cfg.port.Some?
  }

  /** The instance's timestamp: the parsed `updatedAt`, else the directory's modification
      date, else `distantPast`. */
  function ResolvedUpdatedAt(cfg: SharedConfiguration, dir: InstanceDir, parsers: Parsers): Timestamp {
    match parsers.date(cfg.updatedAt)
    case Some(d) => d
    case None => dir.modificationDate.GetOr(DistantPast)
  }

  /** The instance's URL: `cfg.url` when it parses, else `http://address:port`. */
  function ResolvedUrl(cfg: SharedConfiguration, address: string, port: nat, parsers: Parsers): Url {
    if cfg.url.Some? && parsers.url(cfg.url.value).Some? then parsers.url(cfg.url.value).value
    else Url("http", address, Some(port), "")
  }

  /** The candidate one directory entry contributes, if any. */
  function Candidate(dir: InstanceDir, parsers: Parsers): (c: Option<Instance>)
    ensures c.Some? <==>
      dir.isDirectory && dir.hasConfigurationFile && dir.configuration.Some? && Eligible(dir.configuration.value)
  {
    if !dir.isDirectory || !dir.hasConfigurationFile || dir.configuration.None? then None
    else
      var cfg := dir.configuration.value;
      if !Eligible(cfg) then None
      else
        var address, port := cfg.address.value, cfg.port.value;
        Some(Instance(
          cfg.instanceId,
          ResolvedUpdatedAt(cfg, dir, parsers),
          address,
          port,
          ResolvedUrl(cfg, address, port, parsers),
          cfg.exposeToNetwork.GetOr(false)))
  }

  /** The candidates of a scan, in enumeration order. */
  function Candidates(dirs: seq<InstanceDir>, parsers: Parsers): seq<Instance>
    decreases |dirs|
  {
    if dirs == [] then []
    else
      var rest := Candidates(dirs[..|dirs| - 1], parsers);
      match Candidate(dirs[|dirs| - 1], parsers)
      case Some(c) => rest + [c]
      case None => rest
  }

  /** `candidates.max(by: { $0.updatedAt < $1.updatedAt })`: a candidate whose timestamp
      is at least every other candidate's (the standard library keeps the last of equal
      maxima). */
  function Latest(cs: seq<Instance>): (best: Instance)
    requires cs != []
    ensures best in cs
    ensures forall c :: c in cs ==> c.updatedAt <= best.updatedAt
    decreases |cs|
  {
    if |cs| == 1 then cs[0]
    else
      var b := Latest(cs[..|cs| - 1]);
      var e := cs[|cs| - 1];
      assert forall c :: c in cs ==> c in cs[..|cs| - 1] || c == e;
      if !(e.updatedAt < b.updatedAt) then e else b
  }

  /** `discoverLatestRunningInstance()`. `listing` is the directory enumeration, `None` when
      `SharedConfiguration/` cannot be listed. */
  method DiscoverLatestRunningInstance(listing: Option<seq<InstanceDir>>, parsers: Parsers)
    returns (r: Result<Instance, OsaurusError>)
    ensures r.Failure? ==> r.error == DiscoveryFailed
    ensures r.Success? <==> listing.Some? && Candidates(listing.value, parsers) != []
    ensures r.Success? ==>
      && r.value in Candidates(listing.value, parsers)
      && forall c :: c in Candidates(listing.value, parsers) ==> c.updatedAt <= r.value.updatedAt
  {
    if listing.None? || listing.value == [] {
      return Failure(DiscoveryFailed);
    }
    var dirs := listing.value;
    var candidates: seq<Instance> := [];
    for i := 0 to |dirs|
      invariant candidates == Candidates(dirs[..i], parsers)
    {
      assert dirs[..i + 1][..i] == dirs[..i];
      var dir := dirs[i];
      if !dir.isDirectory {
        continue;
      }
      if !dir.hasConfigurationFile {
        continue;
      }
      if dir.configuration.None? {
        // an unreadable or undecodable descriptor only skips this entry
        continue;
      }
      var cfg := dir.configuration.value;
      if cfg.health != "running" || cfg.address.None? || cfg.port.None? {
        continue;
      }
      var address, port := cfg.address.value, cfg.port.value;
      var updatedAt := ResolvedUpdatedAt(cfg, dir, parsers);
      var url := ResolvedUrl(cfg, address, port, parsers);
      var expose := cfg.exposeToNetwork.GetOr(false);
      candidates := candidates + [Instance(cfg.instanceId, updatedAt, address, port, url, expose)];
    }
    assert dirs[..|dirs|] == dirs;
    if candidates == [] {
      return Failure(DiscoveryFailed);
    }
    r := Success(Latest(candidates));
  }

  /** The candidates of a concatenated scan are the concatenated candidates. */
  lemma {:induction false} CandidatesAppend(a: seq<InstanceDir>, b: seq<InstanceDir>, parsers: Parsers)
    ensures Candidates(a + b, parsers) == Candidates(a, parsers) + Candidates(b, parsers)
    decreases |b|
  {
    if b == [] {
      assert a + b == a;
    } else {
      var b' := b[..|b| - 1];
      assert (a + b)[..|a + b| - 1] == a + b';
      assert (a + b)[|a + b| - 1] == b[|b| - 1];
      CandidatesAppend(a, b', parsers);
    }
  }

  /** A directory entry that contributes no candidate (not a directory, no file, an
      unreadable or undecodable file, or an ineligible descriptor) does not affect the
      scan of its siblings. */
  lemma SkippedEntryIsIgnored(a: seq<InstanceDir>, dir: InstanceDir, b: seq<InstanceDir>, parsers: Parsers)
    requires Candidate(dir, parsers).None?
    ensures Candidates(a + [dir] + b, parsers) == Candidates(a + b, parsers)
  {
    CandidatesAppend(a + [dir], b, parsers);
    CandidatesAppend(a, [dir], parsers);
    CandidatesAppend(a, b, parsers);
    assert Candidates([dir], parsers) == [];
  }

  /** Every candidate comes from an eligible descriptor of some directory entry, keeps its
      identity, address and port, and falls back through the timestamp sources and URL
      sources in order. */
  lemma {:induction false} CandidateOrigin(dirs: seq<InstanceDir>, parsers: Parsers, c: Instance)
    requires c in Candidates(dirs, parsers)
    ensures exists k :: 0 <= k < |dirs| && Candidate(dirs[k], parsers) == Some(c)
    decreases |dirs|
  {
    var last := dirs[|dirs| - 1];
    if Candidate(last, parsers) == Some(c) {
      assert Candidate(dirs[|dirs| - 1], parsers) == Some(c);
    } else {
      CandidateOrigin(dirs[..|dirs| - 1], parsers, c);
      var k :| 0 <= k < |dirs| - 1 && Candidate(dirs[..|dirs| - 1][k], parsers) == Some(c);
      assert dirs[..|dirs| - 1][k] == dirs[k];
    }
  }

  /** What a candidate records about its descriptor. */
  lemma CandidateFields(dir: InstanceDir, parsers: Parsers)
    requires Candidate(dir, parsers).Some?
    ensures var cfg, c := dir.configuration.value, Candidate(dir, parsers).value;
      && cfg.health == "running"
      && c.instanceId == cfg.instanceId
      && Some(c.address) == cfg.address && Some(c.port) == cfg.port
      && c.exposeToNetwork == (cfg.exposeToNetwork == Some(true))
      && (parsers.date(cfg.updatedAt).Some? ==> c.updatedAt == parsers.date(cfg.updatedAt).value)
      && (parsers.date(cfg.updatedAt).None? && dir.modificationDate.Some? ==> c.updatedAt == dir.modificationDate.value)
      && (parsers.date(cfg.updatedAt).None? && dir.modificationDate.None? ==> c.updatedAt == DistantPast)
      && (cfg.url.Some? && parsers.url(cfg.url.value).Some? ==> c.url == parsers.url(cfg.url.value).value)
      && (cfg.url.None? || parsers.url(cfg.url.value).None? ==>
            c.url == Url("http", cfg.address.value, Some(cfg.port.value), ""))
  {
  }

  /** A scan with exactly one eligible entry discovers that entry's instance. */
  lemma SingleCandidateWins(a: seq<InstanceDir>, dir: InstanceDir, b: seq<InstanceDir>, parsers: Parsers)
    requires Candidates(a, parsers) == [] && Candidates(b, parsers) == []
    requires Candidate(dir, parsers).Some?
    ensures Candidates(a + [dir] + b, parsers) == [Candidate(dir, parsers).value]
  {
    CandidatesAppend(a + [dir], b, parsers);
    CandidatesAppend(a, [dir], parsers);
    assert Candidates([dir], parsers) == [Candidate(dir, parsers).value] by {
      assert [dir][..0] == [];
    }
  }

  /** `isRunning()`: discovery collapsed to a boolean. */
  method IsRunning(listing: Option<seq<InstanceDir>>, parsers: Parsers) returns (running: bool)
    ensures running <==> listing.Some? && Candidates(listing.value, parsers) != []
  {
    var r := DiscoverLatestRunningInstance(listing, parsers);
    running := r.Success?;
  }

  // =======================================================================================
  // Client construction

  datatype Client = Client(baseUrl: Url)

  /** `init(baseURL:)`: the explicit URL, else a parseable `OSAURUS_BASE_URL`, else
      `http://localhost:1337`. It never fails. */
  function Init(explicit: Option<Url>, env: Environment, parsers: Parsers): (c: Client)
    ensures explicit.Some? ==> c.baseUrl == explicit.value
    ensures explicit.None? && env.baseUrl.Some? && parsers.url(env.baseUrl.value).Some? ==>
      c.baseUrl == parsers.url(env.baseUrl.value).value
    ensures explicit.None? && (env.baseUrl.None? || parsers.url(env.baseUrl.value).None?) ==>
      c.baseUrl == LocalDefault
  {
    if explicit.Some? then Client(explicit.value)
    else if env.baseUrl.Some? && parsers.url(env.baseUrl.value).Some? then
      Client(parsers.url(env.baseUrl.value).value)
    else Client(LocalDefault)
  }

  /** `make()`: a parseable `OSAURUS_BASE_URL` first, then discovery; any discovery failure
      becomes `discoveryFailed`, and the localhost default is never used. */
  method Make(env: Environment, parsers: Parsers, listing: Option<seq<InstanceDir>>)
    returns (r: Result<Client, OsaurusError>)
    ensures env.baseUrl.Some? && parsers.url(env.baseUrl.value).Some? ==>
      r == Success(Client(parsers.url(env.baseUrl.value).value))
    ensures !(env.baseUrl.Some? && parsers.url(env.baseUrl.value).Some?) ==>
      && (r.Success? <==> listing.Some? && Candidates(listing.value, parsers) != [])
      && (r.Failure? ==> r.error == DiscoveryFailed)
      && (r.Success? ==> exists c :: (c in Candidates(listing.value, parsers) && r.value.baseUrl == c.url &&
            forall d :: d in Candidates(listing.value, parsers) ==> d.updatedAt <= c.updatedAt))
  {
    if env.baseUrl.Some? && parsers.url(env.baseUrl.value).Some? {
      return Success(Init(parsers.url(env.baseUrl.value), env, parsers));
    }
    var found := DiscoverLatestRunningInstance(listing, parsers);
    if found.Failure? {
      return Failure(DiscoveryFailed);
    }
    r := Success(Init(Some(found.value.url), env, parsers));
  }

  // =======================================================================================
  // Requests

  datatype ChatMessage = ChatMessage(role: string, content: string)

  /** The JSON body a request carries. The non-streaming body has no `stream` key; the
      streaming one carries `stream`. Temperature is not modelled. */
  datatype RequestBody =
    | NoBody
    | Completion(model: string, messages: seq<ChatMessage>)
    | StreamingCompletion(model: string, messages: seq<ChatMessage>, stream: bool)

  datatype Request = Request(url: Url, verb: string, headers: map<string, string>, body: RequestBody)

  const CompletionsPath: string := "v1/chat/completions"
  const ModelsPath: string := "v1/models"
  const EventStream: string := "text/event-stream"

  /** `"/" + path` unless `path` already starts with `/`. */
  function NormalizedPath(path: string): (p: string)
    ensures p != [] && p[0] == '/'
    ensures "/" <= path ==> p == path
    ensures !("/" <= path) ==> p == "/" + path
  {
    if "/" <= path then path else "/" + path
  }

  /** `url(path:)`: same scheme, host and port as the base; the base path followed by the
      normalized path. */
  function Endpoint(base: Url, path: string): (u: Url)
    ensures u.scheme == base.scheme && u.host == base.host && u.port == base.port
    ensures u.path == base.path + NormalizedPath(path)
  {
    base.(path := base.path + NormalizedPath(path))
  }

  /** Normalization adds exactly one slash: `path` and `/path` name the same endpoint, and
      the endpoint's path ends with the requested path. */
  lemma EndpointNormalization(base: Url, path: string)
    ensures !("/" <= path) ==> Endpoint(base, path) == Endpoint(base, "/" + path)
    ensures var p := Endpoint(base, path).path;
      base.path <= p && p[|base.path|] == '/' && p[|p| - |path|..] == path
      && |p| - |base.path| - |path| <= 1
  {
    var p := Endpoint(base, path).path;
    if "/" <= path {
      assert p == base.path + path;
    } else {
      assert p == base.path + "/" + path;
    }
  }

  /** `buildRequest(path:method:accept:)`: the endpoint URL, the given method, and the
      shared headers. */
  function BuildRequest(client: Client, env: Environment, path: string, verb: string, accept: Option<string>)
    : (req: Request)
    ensures req.url == Endpoint(client.baseUrl, path) && req.verb == verb && req.body == NoBody
    ensures "Content-Type" in req.headers && req.headers["Content-Type"] == "application/json"
    ensures "Accept" in req.headers <==> accept.Some?
    ensures accept.Some? ==> req.headers["Accept"] == accept.value
    ensures "Authorization" in req.headers <==> env.apiKey.Some? && env.apiKey.value != ""
    ensures "Authorization" in req.headers ==> req.headers["Authorization"] == "Bearer " + env.apiKey.value
    ensures req.headers.Keys <= {"Content-Type", "Accept", "Authorization"}
  {
    var h0 := map["Content-Type" := "application/json"];
    var h1 := if accept.Some? then h0["Accept" := accept.value] else h0;
    var h2 := if env.apiKey.Some? && env.apiKey.value != "" then h1["Authorization" := "Bearer " + env.apiKey.value] else h1;
    Request(Endpoint(client.baseUrl, path), verb, h2, NoBody)
  }

  /** The request `create` sends: a POST to the completions endpoint without `Accept`,
      carrying the model and the messages in order. */
  function CompletionRequest(client: Client, env: Environment, model: string, messages: seq<ChatMessage>)
    : (req: Request)
    ensures req.verb == "POST" && req.url == Endpoint(client.baseUrl, CompletionsPath)
    ensures "Accept" !in req.headers
    ensures "Content-Type" in req.headers && req.headers["Content-Type"] == "application/json"
    ensures req.body == Completion(model, messages)
    ensures "Authorization" in req.headers <==> env.apiKey.Some? && env.apiKey.value != ""
    ensures "Authorization" in req.headers ==> req.headers["Authorization"] == "Bearer " + env.apiKey.value
    ensures req.headers.Keys <= {"Content-Type", "Accept", "Authorization"}
  {
    BuildRequest(client, env, CompletionsPath, "POST", None).(body := Completion(model, messages))
  }

  /** The request `createStream` sends: a POST to the completions endpoint accepting an
      event stream, with `stream: true`. */
  function StreamRequest(client: Client, env: Environment, model: string, messages: seq<ChatMessage>)
    : (req: Request)
    ensures req.verb == "POST" && req.url == Endpoint(client.baseUrl, CompletionsPath)
    ensures "Accept" in req.headers && req.headers["Accept"] == EventStream
    ensures "Content-Type" in req.headers && req.headers["Content-Type"] == "application/json"
    ensures req.body == StreamingCompletion(model, messages, true)
    ensures "Authorization" in req.headers <==> env.apiKey.Some? && env.apiKey.value != ""
    ensures "Authorization" in req.headers ==> req.headers["Authorization"] == "Bearer " + env.apiKey.value
    ensures req.headers.Keys <= {"Content-Type", "Accept", "Authorization"}
  {
    BuildRequest(client, env, CompletionsPath, "POST", Some(EventStream))
      .(body := StreamingCompletion(model, messages, true))
  }

  /** The request `listModels` and `checkHealth` send: a GET (the default method) to
      `v1/models` without `Accept`. */
  function ModelsRequest(client: Client, env: Environment): (req: Request)
    ensures req.verb == "GET" && req.url == Endpoint(client.baseUrl, ModelsPath)
    ensures "Accept" !in req.headers && req.body == NoBody
    ensures "Content-Type" in req.headers && req.headers["Content-Type"] == "application/json"
    ensures "Authorization" in req.headers <==> env.apiKey.Some? && env.apiKey.value != ""
    ensures "Authorization" in req.headers ==> req.headers["Authorization"] == "Bearer " + env.apiKey.value
    ensures req.headers.Keys <= {"Content-Type", "Accept", "Authorization"}
  {
    BuildRequest(client, env, ModelsPath, "GET", None)
  }

  // =======================================================================================
  // Replies

  /** What `session.data(for:)` produced: a thrown transport error, a response that is not
      an `HTTPURLResponse`, or an HTTP status with the body decoded (`None` when the
      decoder throws). */
  datatype Reply<T> = Unreachable | NotHttp | Http(status: int, body: Option<T>)

  predicate IsSuccessStatus(status: int) {
    200 <= status <= 299
  }

  /** The response checks of `create` and `listModels`: no HTTP response is
      `invalidResponse`, a status outside 200-299 is `httpError(status)`, and only then is
      the body decoded. */
  function Validate<T>(reply: Reply<T>): (r: Result<T, OsaurusError>)
    ensures reply.Unreachable? ==> r == Failure(TransportFailed)
    ensures reply.NotHttp? ==> r == Failure(InvalidResponse)
    ensures reply.Http? && !IsSuccessStatus(reply.status) ==> r == Failure(HttpError(reply.status))
    ensures reply.Http? && IsSuccessStatus(reply.status) ==>
      r == (if reply.body.Some? then Success(reply.body.value) else Failure(DecodingFailed))
  {
    match reply
    case Unreachable => Failure(TransportFailed)
    case NotHttp => Failure(InvalidResponse)
    case Http(status, body) =>
      if !IsSuccessStatus(status) then Failure(HttpError(status))
      else if body.None? then Failure(DecodingFailed)
      else Success(body.value)
  }

  /** A failing status decides the outcome whatever the body holds: the body is never
      decoded. */
  lemma StatusBeforeDecode<T>(status: int, b1: Option<T>, b2: Option<T>)
    requires !IsSuccessStatus(status)
    ensures Validate(Http(status, b1)) == Validate(Http(status, b2)) == Failure(HttpError(status))
  {
  }

  // =======================================================================================
  // Models

  datatype OsaurusModel = OsaurusModel(id: string, object: Option<string>, created: Option<int>, ownedBy: Option<string>)

  datatype ModelsResponse = ModelsResponse(object: Option<string>, data: seq<OsaurusModel>)

  /** `listModels()`: the `data` array, in server order, after the response checks. */
  function ListModels(reply: Reply<ModelsResponse>): (r: Result<seq<OsaurusModel>, OsaurusError>)
    ensures r.Success? <==> Validate(reply).Success?
    ensures r.Success? ==> r.value == reply.body.value.data
    ensures r.Failure? ==> r.error == Validate(reply).error
  {
    match Validate(reply)
    case Success(resp) => Success(resp.data)
    case Failure(e) => Failure(e)
  }

  /** `checkHealth()`: discovery, then a models request to the discovered instance's URL;
      healthy exactly when discovery succeeds and the reply is an HTTP 2xx. `probe` is the
      request sent, if any. */
  method CheckHealth(listing: Option<seq<InstanceDir>>, parsers: Parsers, env: Environment, reply: Reply<ModelsResponse>)
    returns (healthy: bool, probe: Option<Request>)
    ensures probe.Some? <==> listing.Some? && Candidates(listing.value, parsers) != []
    ensures probe.Some? ==> exists c :: (c in Candidates(listing.value, parsers) &&
      (forall d :: d in Candidates(listing.value, parsers) ==> d.updatedAt <= c.updatedAt) &&
      probe.value == ModelsRequest(Client(c.url), env))
    ensures healthy <==> probe.Some? && reply.Http? && IsSuccessStatus(reply.status)
  {
    var found := DiscoverLatestRunningInstance(listing, parsers);
    if found.Failure? {
      return false, None;
    }
    var client := Init(Some(found.value.url), env, parsers);
    probe := Some(ModelsRequest(client, env));
    match reply
    case Http(status, _) =>
      healthy := IsSuccessStatus(status);
    case _ =>
      healthy := false;
  }

  /** `OsaurusModel.displayName`: six replacements applied in a fixed order. */
  function DisplayName(id: string): string {
    var s1 := ReplaceAll(id, "llama-", "Llama ");
    var s2 := ReplaceAll(s1, "-", " ");
    var s3 := ReplaceAll(s2, "instruct", "Instruct");
    var s4 := ReplaceAll(s3, "4bit", "(4-bit)");
    var s5 := ReplaceAll(s4, "8bit", "(8-bit)");
    ReplaceAll(s5, "fp16", "(FP16)")
  }

  /** Hyphens become spaces: unless the id names a 4-bit or 8-bit quantization (the only
      replacements that write a hyphen), the display name has no hyphen at all. */
  lemma DisplayNameDropsHyphens(id: string)
    requires '4' !in id && '8' !in id
    ensures '-' !in DisplayName(id)
  {
    var s1 := ReplaceAll(id, "llama-", "Llama ");
    var s2 := ReplaceAll(s1, "-", " ");
    var s3 := ReplaceAll(s2, "instruct", "Instruct");
    ReplaceAllKeepsAbsentChar(id, "llama-", "Llama ", '4');
    ReplaceAllKeepsAbsentChar(id, "llama-", "Llama ", '8');
    ReplaceAllKeepsAbsentChar(s1, "-", " ", '4');
    ReplaceAllKeepsAbsentChar(s1, "-", " ", '8');
    ReplaceAllKeepsAbsentChar(s2, "instruct", "Instruct", '4');
    ReplaceAllKeepsAbsentChar(s2, "instruct", "Instruct", '8');
    ReplaceCharRemovesIt(s1, '-', " ");
    ReplaceAllKeepsAbsentChar(s2, "instruct", "Instruct", '-');
    ReplaceAllAbsentHead(s3, "4bit", "(4-bit)");
    ReplaceAllAbsentHead(s3, "8bit", "(8-bit)");
    ReplaceAllKeepsAbsentChar(s3, "fp16", "(FP16)", '-');
  }

  /** The replacements touch only their patterns: an id in which no pattern can start (no
      `l`, `-`, `i`, `4`, `8` or `f`) is displayed exactly as it is. */
  lemma DisplayNameKeepsPlainId(id: string)
    requires 'l' !in id && '-' !in id && 'i' !in id
    requires '4' !in id && '8' !in id && 'f' !in id
    ensures DisplayName(id) == id
  {
    ReplaceAllAbsentHead(id, "llama-", "Llama ");
    ReplaceAllAbsentHead(id, "-", " ");
    ReplaceAllAbsentHead(id, "instruct", "Instruct");
    ReplaceAllAbsentHead(id, "4bit", "(4-bit)");
    ReplaceAllAbsentHead(id, "8bit", "(8-bit)");
    ReplaceAllAbsentHead(id, "fp16", "(FP16)");
  }

  /** The order matters: `llama-` is capitalized before the other hyphens become spaces,
      and the hyphen written by the quantization tag, which comes later, survives. */
  lemma DisplayNameQuantizedLlama(x: string)
    requires 'l' !in x && '-' !in x && 'i' !in x
    requires '4' !in x && '8' !in x && 'f' !in x
    ensures DisplayName("llama-" + x + "-8bit") == "Llama " + x + " (8-bit)"
  {
    var p := "Llama " + x;
    var id := "llama-" + x + "-8bit";
    var s1 := ReplaceAll(id, "llama-", "Llama ");
    var s2 := ReplaceAll(s1, "-", " ");
    var s3 := ReplaceAll(s2, "instruct", "Instruct");
    var s4 := ReplaceAll(s3, "4bit", "(4-bit)");
    var s5 := ReplaceAll(s4, "8bit", "(8-bit)");
    assert s1 == p + "-8bit" by {
      assert id == "llama-" + (x + "-8bit");
      CapitalizeLlama(x + "-8bit");
    }
    assert s4 == p + " 8bit" by {
      SpaceBeforeEightBit(p);
      KeepEightBit(p);
    }
    assert s5 == p + " (8-bit)" by {
      assert p + " 8bit" == (p + " ") + "8bit";
      ExpandEightBit(p + " ");
    }
    ReplaceAllAbsentHead(p + " (8-bit)", "fp16", "(FP16)");
  }

  /** Neither `instruct` nor `4bit` occurs in `<p> 8bit` when `p` has no `i` and no `4`. */
  lemma KeepEightBit(p: string)
    requires 'i' !in p && '4' !in p
    ensures ReplaceAll(ReplaceAll(p + " 8bit", "instruct", "Instruct"), "4bit", "(4-bit)")
         == p + " 8bit"
  {
    assert p + " 8bit" == (p + " 8b") + "it";
    ReplaceAllKeepsPrefix(p + " 8b", "it", "instruct", "Instruct");
    ReplaceAllAbsentHead(p + " 8bit", "4bit", "(4-bit)");
  }

  /** A leading `llama-` is capitalized, and nothing after it changes when it holds no `l`. */
  lemma CapitalizeLlama(tail: string)
    requires 'l' !in tail
    ensures ReplaceAll("llama-" + tail, "llama-", "Llama ") == "Llama " + tail
  {
    ReplaceAllAtHead(tail, "llama-", "Llama ");
    ReplaceAllAbsentHead(tail, "llama-", "Llama ");
  }

  /** The hyphen before a trailing `8bit` becomes a space. */
  lemma SpaceBeforeEightBit(p: string)
    requires '-' !in p
    ensures ReplaceAll(p + "-8bit", "-", " ") == p + " 8bit"
  {
    assert p + "-8bit" == p + ("-" + "8bit");
    ReplaceAllKeepsPrefix(p, "-" + "8bit", "-", " ");
    ReplaceAllAtHead("8bit", "-", " ");
    ReplaceAllAbsentHead("8bit", "-", " ");
  }

  /** A trailing `8bit` after text without an `8` becomes `(8-bit)`. */
  lemma ExpandEightBit(p: string)
    requires '8' !in p
    ensures ReplaceAll(p + "8bit", "8bit", "(8-bit)") == p + "(8-bit)"
  {
    ReplaceAllKeepsPrefix(p, "8bit", "8bit", "(8-bit)");
    ReplaceAllAtHead([], "8bit", "(8-bit)");
    assert "8bit" + [] == "8bit";
  }

  /** A `llama-` family id is shown with the capitalized family name in front, and the
      replacements that follow leave that prefix alone. */
  lemma LlamaDisplayName(rest: string)
    ensures "Llama " <= DisplayName("llama-" + rest)
  {
    var p := "Llama ";
    var t1 := ReplaceAll(rest, "llama-", "Llama ");
    ReplaceAllAtHead(rest, "llama-", "Llama ");
    var t2 := ReplaceAll(t1, "-", " ");
    ReplaceAllKeepsPrefix(p, t1, "-", " ");
    var t3 := ReplaceAll(t2, "instruct", "Instruct");
    ReplaceAllKeepsPrefix(p, t2, "instruct", "Instruct");
    var t4 := ReplaceAll(t3, "4bit", "(4-bit)");
    ReplaceAllKeepsPrefix(p, t3, "4bit", "(4-bit)");
    var t5 := ReplaceAll(t4, "8bit", "(8-bit)");
    ReplaceAllKeepsPrefix(p, t4, "8bit", "(8-bit)");
    ReplaceAllKeepsPrefix(p, t5, "fp16", "(FP16)");
    assert DisplayName("llama-" + rest) == p + ReplaceAll(t5, "fp16", "(FP16)");
  }

  // =======================================================================================
  // Streaming

  datatype ChunkDelta = ChunkDelta(role: Option<string>, content: Option<string>)
  datatype ChunkChoice = ChunkChoice(index: Option<int>, delta: ChunkDelta, finishReason: Option<string>)
  datatype ChatCompletionChunk = ChatCompletionChunk(choices: seq<ChunkChoice>)

  /** The JSON decoder for one event payload; `None` when decoding throws. */
  type ChunkDecoder = string -> Option<ChatCompletionChunk>

  const DataPrefix: string := "data:"
  const DoneSentinel: string := "[DONE]"

  /** What one line of the event stream means to the reader. */
  datatype LineEvent = Skip | Done | Yield(delta: string)

  /** The payload of a `data:` line, with surrounding spaces and tabs removed. */
  function Payload(line: string): string
    requires DataPrefix <= line
  {
    Trim(line[|DataPrefix|..], Whitespaces)
  }

  /** `choices[0].delta.content` when present and non-empty. */
  function FirstDelta(chunk: ChatCompletionChunk): Option<string> {
    if |chunk.choices| > 0 && chunk.choices[0].delta.content.Some? && chunk.choices[0].delta.content.value != ""
    then chunk.choices[0].delta.content
    else None
  }

  /** What a trimmed `data:` payload means: `[DONE]` ends the stream, a payload that does
      not decode is skipped, and a decoded chunk yields its first choice's content delta
      when that is non-empty. */
  function ClassifyPayload(payload: string, decode: ChunkDecoder): (e: LineEvent)
    ensures e == Done <==> payload == DoneSentinel
    ensures e.Yield? <==>
      payload != DoneSentinel && decode(payload).Some? && FirstDelta(decode(payload).value).Some?
    ensures e.Yield? ==>
      && e.delta != []
      && |decode(payload).value.choices| > 0
      && Some(e.delta) == decode(payload).value.choices[0].delta.content
  {
    if payload == DoneSentinel then Done
    else match decode(payload)
      case None => Skip
      case Some(chunk) =>
        match FirstDelta(chunk)
        case Some(d) => Yield(d)
        case None => Skip
  }

  /** The body of the line loop: lines without the `data:` prefix are skipped, the others
      are classified by their trimmed payload. */
  function ClassifyLine(line: string, decode: ChunkDecoder): (e: LineEvent)
    ensures !(DataPrefix <= line) ==> e == Skip
    ensures DataPrefix <= line ==> e == ClassifyPayload(Payload(line), decode)
    ensures e.Yield? ==> e.delta != []
  {
    if !(DataPrefix <= line) then Skip else ClassifyPayload(Payload(line), decode)
  }

  /** The deltas a sequence of lines yields, in arrival order, up to the first `[DONE]`. */
  function Deltas(lines: seq<string>, decode: ChunkDecoder): seq<string>
    decreases |lines|
  {
    if lines == [] then []
    else match ClassifyLine(lines[0], decode)
      case Done => []
      case Skip => Deltas(lines[1..], decode)
      case Yield(d) => [d] + Deltas(lines[1..], decode)
  }

  /** Whether the lines contain a `[DONE]` line. */
  predicate SeesDone(lines: seq<string>, decode: ChunkDecoder) {
    exists k :: 0 <= k < |lines| && ClassifyLine(lines[k], decode) == Done
  }

  /** Every yielded delta is non-empty. */
  lemma {:induction false} DeltasAreNonEmpty(lines: seq<string>, decode: ChunkDecoder)
    ensures forall d :: d in Deltas(lines, decode) ==> d != []
    decreases |lines|
  {
    if lines != [] {
      DeltasAreNonEmpty(lines[1..], decode);
    }
  }

  /** Every yielded delta comes from a line of the stream. */
  lemma {:induction false} DeltasOrigin(lines: seq<string>, decode: ChunkDecoder, d: string)
    requires d in Deltas(lines, decode)
    ensures exists k :: 0 <= k < |lines| && ClassifyLine(lines[k], decode) == Yield(d)
    decreases |lines|
  {
    if ClassifyLine(lines[0], decode) != Yield(d) {
      DeltasOrigin(lines[1..], decode, d);
      var k :| 0 <= k < |lines[1..]| && ClassifyLine(lines[1..][k], decode) == Yield(d);
      assert lines[1..][k] == lines[k + 1];
    }
  }

  /** One step of the line loop, at position `i`. */
  lemma DeltasStep(lines: seq<string>, i: nat, decode: ChunkDecoder)
    requires i < |lines|
    ensures Deltas(lines[i..], decode) ==
      match ClassifyLine(lines[i], decode)
      case Done => []
      case Skip => Deltas(lines[i + 1..], decode)
      case Yield(d) => [d] + Deltas(lines[i + 1..], decode)
  {
    assert lines[i..][0] == lines[i];
    assert lines[i..][1..] == lines[i + 1..];
  }

  /** A line that is not `[DONE]` keeps the prefix read so far free of `[DONE]`. */
  lemma NoDoneExtends(lines: seq<string>, i: nat, decode: ChunkDecoder)
    requires i < |lines| && !SeesDone(lines[..i], decode) && ClassifyLine(lines[i], decode) != Done
    ensures !SeesDone(lines[..i + 1], decode)
  {
    forall k | 0 <= k < i ensures ClassifyLine(lines[k], decode) != Done {
      assert lines[..i][k] == lines[k];
    }
    forall k | 0 <= k < i + 1 ensures lines[..i + 1][k] == lines[k] {
    }
  }

  /** Without a `[DONE]` in the first part, the deltas of two concatenated line sequences
      are the concatenated deltas: lines are handled one at a time, in order. */
  lemma {:induction false} DeltasAppend(a: seq<string>, b: seq<string>, decode: ChunkDecoder)
    requires !SeesDone(a, decode)
    ensures Deltas(a + b, decode) == Deltas(a, decode) + Deltas(b, decode)
    decreases |a|
  {
    if a == [] {
      assert a + b == b;
    } else {
      assert (a + b)[0] == a[0] && (a + b)[1..] == a[1..] + b;
      assert ClassifyLine(a[0], decode) != Done;
      assert !SeesDone(a[1..], decode) by {
        forall k | 0 <= k < |a[1..]| ensures ClassifyLine(a[1..][k], decode) != Done {
          assert a[1..][k] == a[k + 1];
        }
      }
      DeltasAppend(a[1..], b, decode);
    }
  }

  /** A line that is skipped (no `data:` prefix, or a payload that does not decode, or a
      chunk without content) can be removed without changing what the stream yields: decode
      failures never end the stream. */
  lemma SkippedLineIsIgnored(a: seq<string>, line: string, b: seq<string>, decode: ChunkDecoder)
    requires !SeesDone(a, decode) && ClassifyLine(line, decode) == Skip
    ensures Deltas(a + [line] + b, decode) == Deltas(a + b, decode)
  {
    DeltasAppend(a, [line] + b, decode);
    DeltasAppend(a, b, decode);
    assert a + [line] + b == a + ([line] + b);
    assert ([line] + b)[1..] == b;
  }

  /** Nothing after a `[DONE]` line is read. */
  lemma DoneEndsStream(a: seq<string>, line: string, b: seq<string>, decode: ChunkDecoder)
    requires !SeesDone(a, decode) && ClassifyLine(line, decode) == Done
    ensures Deltas(a + [line] + b, decode) == Deltas(a, decode)
  {
    DeltasAppend(a, [line] + b, decode);
    assert a + [line] + b == a + ([line] + b);
  }

  /** What `session.bytes(for:)` produced for the streaming request. `droppedMidStream`
      says that reading the lines threw a transport error after the given lines. */
  datatype StreamReply =
    | StreamUnreachable
    | StreamNotHttp
    | StreamHttp(status: int, lines: seq<string>, droppedMidStream: bool)

  datatype StreamOutcome = Finished | Failed(error: OsaurusError)

  /** The stream as the consumer sees it: the yielded deltas and how it ended. */
  datatype StreamResult = StreamResult(deltas: seq<string>, outcome: StreamOutcome)

  /** What the stream's producer task delivers for a reply. */
  function ExpectedStream(reply: StreamReply, decode: ChunkDecoder): StreamResult {
    match reply
    case StreamUnreachable => StreamResult([], Failed(TransportFailed))
    case StreamNotHttp => StreamResult([], Failed(InvalidResponse))
    case StreamHttp(status, lines, dropped) =>
      if !IsSuccessStatus(status) then StreamResult([], Failed(HttpError(status)))
      else if dropped && !SeesDone(lines, decode) then StreamResult(Deltas(lines, decode), Failed(TransportFailed))
      else StreamResult(Deltas(lines, decode), Finished)
  }

  /** A 2xx stream that is read to its end delivers the deltas of its lines and
      finishes normally. */
  lemma ExpectedStreamOfSuccess(status: int, lines: seq<string>, dropped: bool, decode: ChunkDecoder)
    requires IsSuccessStatus(status) && !dropped
    ensures ExpectedStream(StreamHttp(status, lines, dropped), decode) == StreamResult(Deltas(lines, decode), Finished)
  {
  }

  /** The producer task of `createStream`: the response checks happen once, before any
      line is read; then the line loop runs until `[DONE]` or the end of the body. */
  method ConsumeStream(reply: StreamReply, decode: ChunkDecoder) returns (result: StreamResult)
    ensures result == ExpectedStream(reply, decode)
    ensures !(reply.StreamHttp? && IsSuccessStatus(reply.status)) ==> result.deltas == [] && result.outcome.Failed?
  {
    if reply.StreamUnreachable? {
      return StreamResult([], Failed(TransportFailed));
    }
    if reply.StreamNotHttp? {
      return StreamResult([], Failed(InvalidResponse));
    }
    if !IsSuccessStatus(reply.status) {
      return StreamResult([], Failed(HttpError(reply.status)));
    }
    var lines := reply.lines;
    var deltas: seq<string> := [];
    var i := 0;
    while i < |lines| && ClassifyLine(lines[i], decode) != Done
      invariant 0 <= i <= |lines|
      invariant !SeesDone(lines[..i], decode)
      invariant deltas + Deltas(lines[i..], decode) == Deltas(lines, decode)
    {
      var event := ClassifyLine(lines[i], decode);
      DeltasStep(lines, i, decode);
      NoDoneExtends(lines, i, decode);
      if event.Yield? {
        deltas := deltas + [event.delta];
      }
      i := i + 1;
    }
    if i < |lines| {
      // the `[DONE]` line ends the loop
      DeltasStep(lines, i, decode);
      assert SeesDone(lines, decode);
      return StreamResult(deltas, Finished);
    }
    assert lines[..i] == lines;
    if reply.droppedMidStream {
      return StreamResult(deltas, Failed(TransportFailed));
    }
    result := StreamResult(deltas, Finished);
  }

  /** A payload as it appears on the wire: non-empty and without surrounding spaces. */
  predicate IsBarePayload(p: string) {
    p != [] && p[0] !in Whitespaces && p[|p| - 1] !in Whitespaces
  }

  /** A `data:` line with one separating space carries its payload. */
  lemma PayloadOfDataLine(p: string, decode: ChunkDecoder)
    requires IsBarePayload(p)
    ensures DataPrefix <= "data: " + p && Payload("data: " + p) == p
    ensures ClassifyLine("data: " + p, decode) == ClassifyPayload(p, decode)
  {
    var line := "data: " + p;
    assert line[|DataPrefix|..] == " " + p;
    assert (" " + p)[1..] == p;
    assert DropLeading(p, Whitespaces) == p;
    assert DropLeading(" " + p, Whitespaces) == p;
  }

  /** How the reader classifies each line of the exchange below. */
  lemma ScenarioLines(decode: ChunkDecoder, a: string, garbage: string, b: string, da: string, db: string)
    requires IsBarePayload(a) && IsBarePayload(garbage) && IsBarePayload(b)
    requires a != DoneSentinel && garbage != DoneSentinel && b != DoneSentinel
    requires decode(a).Some? && FirstDelta(decode(a).value) == Some(da)
    requires decode(garbage).None?
    requires decode(b).Some? && FirstDelta(decode(b).value) == Some(db)
    ensures ClassifyLine("data: " + a, decode) == Yield(da)
    ensures ClassifyLine("", decode) == Skip
    ensures ClassifyLine("data: " + garbage, decode) == Skip
    ensures ClassifyLine("data: " + b, decode) == Yield(db)
    ensures ClassifyLine("data: " + DoneSentinel, decode) == Done
  {
    PayloadOfDataLine(a, decode);
    PayloadOfDataLine(garbage, decode);
    PayloadOfDataLine(b, decode);
    PayloadOfDataLine(DoneSentinel, decode);
  }

  /** The line loop on a first line and the rest. */
  lemma DeltasCons(line: string, rest: seq<string>, decode: ChunkDecoder)
    ensures Deltas([line] + rest, decode) ==
      match ClassifyLine(line, decode)
      case Done => []
      case Skip => Deltas(rest, decode)
      case Yield(d) => [d] + Deltas(rest, decode)
  {
    assert ([line] + rest)[0] == line;
    assert ([line] + rest)[1..] == rest;
  }

  /** A yield, two skipped lines, a yield, `[DONE]` and one more line deliver the two
      yields. */
  lemma SixLineDeltas(l0: string, l1: string, l2: string, l3: string, l4: string, l5: string,
                      decode: ChunkDecoder, da: string, db: string)
    requires ClassifyLine(l0, decode) == Yield(da) && ClassifyLine(l1, decode) == Skip
    requires ClassifyLine(l2, decode) == Skip && ClassifyLine(l3, decode) == Yield(db)
    requires ClassifyLine(l4, decode) == Done
    ensures Deltas([l0, l1, l2, l3, l4, l5], decode) == [da, db]
  {
    var r4 := [l4] + [l5];
    DeltasCons(l4, [l5], decode);
    var r3 := [l3] + r4;
    DeltasCons(l3, r4, decode);
    var r2 := [l2] + r3;
    DeltasCons(l2, r3, decode);
    var r1 := [l1] + r2;
    DeltasCons(l1, r2, decode);
    var r0 := [l0] + r1;
    DeltasCons(l0, r1, decode);
    assert r0 == [l0, l1, l2, l3, l4, l5];
  }

  /** A typical exchange: a chunk, a blank separator, a frame that does not decode, a second
      chunk, `[DONE]` and a late chunk yield exactly the two deltas, and the stream
      finishes normally even though the body goes on after `[DONE]`. */
  lemma StreamScenario(decode: ChunkDecoder, a: string, garbage: string, b: string, da: string, db: string)
    requires IsBarePayload(a) && IsBarePayload(garbage) && IsBarePayload(b)
    requires a != DoneSentinel && garbage != DoneSentinel && b != DoneSentinel
    requires decode(a).Some? && FirstDelta(decode(a).value) == Some(da)
    requires decode(garbage).None?
    requires decode(b).Some? && FirstDelta(decode(b).value) == Some(db)
    ensures ExpectedStream(
        StreamHttp(200, ["data: " + a, "", "data: " + garbage, "data: " + b, "data: " + DoneSentinel, "data: " + a], false),
        decode)
      == StreamResult([da, db], Finished)
  {
    ScenarioLines(decode, a, garbage, b, da, db);
    SixLineDeltas("data: " + a, "", "data: " + garbage, "data: " + b, "data: " + DoneSentinel, "data: " + a, decode, da, db);
    ExpectedStreamOfSuccess(200, ["data: " + a, "", "data: " + garbage, "data: " + b, "data: " + DoneSentinel, "data: " + a],
      false, decode);
  }

  // =======================================================================================
  // The tweak facade

  datatype ChatChoice = ChatChoice(index: Option<int>, message: ChatMessage)
  datatype ChatCompletionResponse = ChatCompletionResponse(choices: seq<ChatChoice>)

  /** The conversation both `tweak` and `tweakStream` send. */
  function TweakMessages(systemPrompt: string, text: string): seq<ChatMessage> {
    [ChatMessage("system", systemPrompt), ChatMessage("user", text)]
  }

  /** The request `tweak` sends: a completion request whose conversation is the system
      prompt followed by the user's text, and nothing else. */
  function TweakRequest(client: Client, env: Environment, text: string, model: string, systemPrompt: string)
    : (req: Request)
    ensures req.verb == "POST" && req.url == Endpoint(client.baseUrl, CompletionsPath)
    ensures req.body.Completion? && req.body.model == model
    ensures |req.body.messages| == 2
    ensures req.body.messages[0].role == "system" && req.body.messages[0].content == systemPrompt
    ensures req.body.messages[1].role == "user" && req.body.messages[1].content == text
  {
    CompletionRequest(client, env, model, TweakMessages(systemPrompt, text))
  }

  /** The request `tweakStream` sends: the same conversation, as a streaming request. */
  function TweakStreamRequest(client: Client, env: Environment, text: string, model: string, systemPrompt: string)
    : (req: Request)
    ensures req.verb == "POST"
    ensures req.body.StreamingCompletion? && req.body.stream && req.body.model == model
    ensures "Accept" in req.headers && req.headers["Accept"] == EventStream
    ensures req.body.messages == TweakRequest(client, env, text, model, systemPrompt).body.messages
    ensures req.url == TweakRequest(client, env, text, model, systemPrompt).url
  {
    StreamRequest(client, env, model, TweakMessages(systemPrompt, text))
  }

  /** `tweak`'s handling of the completion reply: the first choice's content trimmed of
      whitespace and newlines; `invalidResponse` when there is no choice or the trimmed
      content is empty; `create`'s errors propagate unchanged. */
  function TweakReply(reply: Reply<ChatCompletionResponse>): (r: Result<string, OsaurusError>)
    ensures Validate(reply).Failure? ==> r == Failure(Validate(reply).error)
    ensures r.Success? ==>
      (r.value != [] && r.value[0] !in WhitespacesAndNewlines && r.value[|r.value| - 1] !in WhitespacesAndNewlines)
    ensures r.Success? <==>
      && Validate(reply).Success?
      && |reply.body.value.choices| > 0
      && (exists k :: 0 <= k < |reply.body.value.choices[0].message.content| &&
           reply.body.value.choices[0].message.content[k] !in WhitespacesAndNewlines)
    ensures r.Success? ==>
      (r.value == Trim(reply.body.value.choices[0].message.content, WhitespacesAndNewlines))
    ensures Validate(reply).Success? && r.Failure? ==> r.error == InvalidResponse
  {
    match Validate(reply)
    case Failure(e) => Failure(e)
    case Success(response) =>
      if |response.choices| == 0 then Failure(InvalidResponse)
      else
        var tweaked := Trim(response.choices[0].message.content, WhitespacesAndNewlines);
        if tweaked == [] then Failure(InvalidResponse) else Success(tweaked)
  }

  /** An all-whitespace reply is `invalidResponse`, never an empty string. */
  lemma BlankReplyIsInvalid(content: string)
    requires forall k :: 0 <= k < |content| ==> content[k] in WhitespacesAndNewlines
    ensures TweakReply(Http(200, Some(ChatCompletionResponse([ChatChoice(Some(0), ChatMessage("assistant", content))]))))
      == Failure(InvalidResponse)
  {
  }
}
