/**
 * The request side of the hub in server.py: the `/chat` handler's validation
 * and dispatch, the per-provider `stream_*` wrappers with their missing-key
 * guard, the `ping_provider` health classification and the design loader's
 * section merge. The network is the oracle `respond` (one streaming POST) and
 * `fetch` (one model listing); credentials are the strings the environment
 * gave, with "" for a missing one.
 */
module Gateway {
  import opened Wrappers
  import opened JsonValue
  import opened PyText
  import opened Streams

  // ---------------------------------------------------------------------------
  // Providers
  // ---------------------------------------------------------------------------

  datatype Provider = OpenAI | OpenRouter | Qwen | Ollama | Genesis

  /** The provider a (lower-cased) name selects; `gwen` is accepted for `qwen`. */
  function ProviderNamed(name: string): (r: Option<Provider>)
    ensures r == Some(Qwen) <==> name == "qwen" || name == "gwen"
    ensures r.None? <==> name !in {"openai", "openrouter", "qwen", "gwen", "ollama", "genesis"}
  {
    if name == "openai" then Some(OpenAI)
    else if name == "openrouter" then Some(OpenRouter)
    else if name == "qwen" || name == "gwen" then Some(Qwen)
    else if name == "ollama" then Some(Ollama)
    else if name == "genesis" then Some(Genesis)
    else None
  }

  /** The model used when the request names none. */
  function DefaultModel(p: Provider): (m: string)
    ensures m != ""
  {
    match p
    case OpenAI => "gpt-4o"
    case OpenRouter => "openrouter/auto"
    case Qwen => "qwen-plus"
    case Ollama => "llama3"
    case Genesis => "llama-3.3-70b-instruct"
  }

  /** The credentials and base URLs read from the environment at start-up. */
  datatype Settings = Settings(
    openaiKey: string,
    openrouterKey: string,
    qwenKey: string,
    qwenBase: string,
    genesisKey: string,
    genesisBase: string)

  /** The API key a provider needs; Ollama needs none. */
  function KeyOf(s: Settings, p: Provider): Option<string> {
    match p
    case OpenAI => Some(s.openaiKey)
    case OpenRouter => Some(s.openrouterKey)
    case Qwen => Some(s.qwenKey)
    case Ollama => None
    case Genesis => Some(s.genesisKey)
  }

  /** The in-band signal of a missing key, e.g. `[OpenAI not configured]`. */
  function NotConfigured(p: Provider): string {
    "[" + Label(p) + " not configured]\n"
  }

  /** The name a provider goes by in messages. */
  function Label(p: Provider): string {
    match p
    case OpenAI => "OpenAI"
    case OpenRouter => "OpenRouter"
    case Qwen => "Qwen"
    case Ollama => "Ollama"
    case Genesis => "Genesis"
  }

  /** The lower-case name that selects a provider. */
  function NameOf(p: Provider): (name: string)
    ensures ProviderNamed(name) == Some(p)
  {
    match p
    case OpenAI => "openai"
    case OpenRouter => "openrouter"
    case Qwen => "qwen"
    case Ollama => "ollama"
    case Genesis => "genesis"
  }

  /** The endpoint a provider's chat stream is posted to. */
  function ChatUrl(s: Settings, p: Provider): string {
    match p
    case OpenAI => "https://api.openai.com/v1/chat/completions"
    case OpenRouter => "https://openrouter.ai/api/v1/chat/completions"
    case Qwen => RStripSlashes(s.qwenBase) + "/chat/completions"
    case Ollama => "http://localhost:11434/api/generate"
    case Genesis => RStripSlashes(s.genesisBase) + "/chat/completions"
  }

  /** The one streaming POST a `stream_*` wrapper makes. */
  datatype UpstreamRequest = UpstreamRequest(url: string, key: string, model: string, message: string)

  /** The network, as seen by one streaming POST. */
  type Network = UpstreamRequest -> Upstream

  /** The request a wrapper makes, or `None` when its key is missing and it makes none. */
  function RequestFor(s: Settings, p: Provider, model: string, message: string): (r: Option<UpstreamRequest>)
    ensures r.None? <==> KeyOf(s, p) == Some("")
    ensures r.Some? ==> r.value.url == ChatUrl(s, p) && r.value.model == model && r.value.message == message
  {
    match KeyOf(s, p)
    case None => Some(UpstreamRequest(ChatUrl(s, p), "", model, message))
    case Some(key) => if key == "" then None else Some(UpstreamRequest(ChatUrl(s, p), key, model, message))
  }

  /** The fragment `stream_ollama` yields for a connection error it catches. */
  function OllamaConnectionError(reason: string): string {
    "[Ollama connection error] " + reason
  }

  /**
   * What `stream_openai`, `stream_openrouter`, `stream_qwen`, `stream_ollama`
   * and `stream_genesis` yield: the missing-key signal, or the parsed upstream
   * body. Only the Ollama wrapper turns a connection error into a fragment.
   */
  function StreamFor(s: Settings, p: Provider, model: string, message: string,
                     respond: Network, decode: Decoder): Stream
  {
    match RequestFor(s, p, model, message)
    case None => Stream([NotConfigured(p)], Completed)
    case Some(req) =>
      if p == Ollama then
        var out := Parse(Ndjson, decode, respond(req));
        if out.ending.ConnectionError? then
          Stream(out.fragments + [OllamaConnectionError(out.ending.reason)], Completed)
        else out
      else Parse(Sse, decode, respond(req))
  }

  // ---------------------------------------------------------------------------
  // The /chat handler
  // ---------------------------------------------------------------------------

  /** The handler's answer before any fragment is streamed. */
  datatype ChatReply =
    | Rejected(status: int, error: string)                     // a JSON error response
    | Dispatched(provider: Provider, model: string, message: string)
    | Failed                                                   // an exception: HTTP 500

  /** `(data.get(key) or "")` when it is a string; `None` when a string method would raise. */
  function TextField(data: map<string, Json>, key: string): (r: Option<string>)
    ensures r.Some? <==> Or(Get(data, key), Str("")).Str?
    ensures r.Some? && key in data && Truthy(data[key]) ==> data[key] == Str(r.value)
    ensures r.Some? && !(key in data && Truthy(data[key])) ==> r.value == ""
  {
    match Or(Get(data, key), Str(""))
    case Str(t) => Some(t)
    case _ => None
  }

  /** The `/chat` handler's decision on a request body. */
  function Chat(decode: Decoder, body: string): ChatReply {
    if decode(body).None? || !decode(body).value.Obj? then Failed
    else
      var data := decode(body).value.fields;
      var provider := TextField(data, "provider");
      var model := TextField(data, "model");
      var message := TextField(data, "message");
      if provider.None? || model.None? || message.None? then Failed
      else ChatFields(provider.value, model.value, message.value)
  }

  /** The `/chat` handler's decision once the three fields are strings. */
  function ChatFields(provider: string, model: string, message: string): ChatReply {
    var msg := Strip(message);
    var m := Strip(model);
    if msg == "" then Rejected(400, "empty message")
    else
      match ProviderNamed(Lower(provider))
      case None => Rejected(400, "unknown provider")
      case Some(p) => Dispatched(p, if m == "" then DefaultModel(p) else m, msg)
  }

  /** A body holding three strings is decided on those strings. */
  lemma ChatOfBody(decode: Decoder, body: string, provider: string, model: string, message: string)
    requires decode(body) == Some(Obj(ChatBody(provider, model, message)))
    ensures Chat(decode, body) == ChatFields(provider, model, message)
  {
    var data := ChatBody(provider, model, message);
    assert TextField(data, "provider") == Some(provider);
    assert TextField(data, "model") == Some(model);
    assert TextField(data, "message") == Some(message);
  }

  /** What the client receives from `/chat`: a JSON error, a 500, or the stream. */
  datatype ChatResponse = ErrorJson(status: int, error: string) | ServerError | Streamed(out: Stream)

  function ChatRespond(s: Settings, decode: Decoder, body: string, respond: Network): ChatResponse {
    match Chat(decode, body)
    case Rejected(status, error) => ErrorJson(status, error)
    case Failed => ServerError
    case Dispatched(p, model, message) => Streamed(StreamFor(s, p, model, message, respond, decode))
  }

  /** The fields of a well-formed chat request body. */
  function ChatBody(provider: string, model: string, message: string): map<string, Json> {
    map["provider" := Str(provider), "model" := Str(model), "message" := Str(message)]
  }

  /** A message that is blank once stripped is rejected with 400 before any dispatch. */
  lemma BlankMessageRejected(s: Settings, decode: Decoder, body: string, data: map<string, Json>,
                             respond: Network)
    requires decode(body) == Some(Obj(data))
    requires TextField(data, "provider").Some? && TextField(data, "model").Some?
    requires TextField(data, "message").Some?
    requires forall i :: 0 <= i < |TextField(data, "message").value| ==>
               IsSpace(TextField(data, "message").value[i])
    ensures Chat(decode, body) == Rejected(400, "empty message")
    ensures ChatRespond(s, decode, body, respond) == ErrorJson(400, "empty message")
  {
    StripEmpty(TextField(data, "message").value);
  }

  /** A request dispatches exactly when its message is non-blank and its provider is known. */
  lemma ChatDispatchesIff(decode: Decoder, body: string, provider: string, model: string, message: string)
    requires decode(body) == Some(Obj(ChatBody(provider, model, message)))
    ensures Chat(decode, body).Dispatched? <==>
              Strip(message) != "" && ProviderNamed(Lower(provider)).Some?
    ensures Chat(decode, body).Dispatched? ==>
              Chat(decode, body).provider == ProviderNamed(Lower(provider)).value
              && Chat(decode, body).message == Strip(message)
              && Chat(decode, body).message != ""
  {
    ChatOfBody(decode, body, provider, model, message);
  }

  /** An unknown provider name is rejected with 400. */
  lemma UnknownProviderRejected(decode: Decoder, body: string, provider: string, model: string, message: string)
    requires decode(body) == Some(Obj(ChatBody(provider, model, message)))
    requires Strip(message) != ""
    requires Lower(provider) !in {"openai", "openrouter", "qwen", "gwen", "ollama", "genesis"}
    ensures Chat(decode, body) == Rejected(400, "unknown provider")
  {
    ChatOfBody(decode, body, provider, model, message);
  }

  /** A model that is blank once stripped is replaced by the provider's default. */
  lemma BlankModelDefaults(decode: Decoder, body: string, provider: string, model: string, message: string)
    requires decode(body) == Some(Obj(ChatBody(provider, model, message)))
    requires Chat(decode, body).Dispatched?
    ensures Chat(decode, body).model ==
              if Strip(model) == "" then DefaultModel(Chat(decode, body).provider) else Strip(model)
    ensures Chat(decode, body).model != ""
  {
    ChatOfBody(decode, body, provider, model, message);
  }

  /**
   * The handler matches provider names after lower-casing: two requests
   * whose provider names differ only in ASCII case are answered alike, and
   * `Gwen`, `QWEN` and the like reach Qwen.
   */
  lemma ProviderCaseInsensitive(s: Settings, decode: Decoder, b1: string, b2: string,
                                p1: string, p2: string, model: string, message: string, respond: Network)
    requires decode(b1) == Some(Obj(ChatBody(p1, model, message)))
    requires decode(b2) == Some(Obj(ChatBody(p2, model, message)))
    requires Lower(p1) == Lower(p2)
    ensures Chat(decode, b1) == Chat(decode, b2)
    ensures ChatRespond(s, decode, b1, respond) == ChatRespond(s, decode, b2, respond)
    ensures Strip(message) != "" && (Lower(p1) == "gwen" || Lower(p1) == "qwen") ==>
              Chat(decode, b1).Dispatched? && Chat(decode, b1).provider == Qwen
  {
    ChatOfBody(decode, b1, p1, model, message);
    ChatOfBody(decode, b2, p2, model, message);
  }

  /** A body that is not a JSON object makes the handler raise. */
  lemma NonObjectBodyFails(decode: Decoder, body: string)
    requires decode(body).None? || !decode(body).value.Obj?
    ensures Chat(decode, body) == Failed
  {
  }

  /** A missing key yields exactly the one signal fragment and makes no request. */
  lemma MissingKeyOneFragment(s: Settings, p: Provider, model: string, message: string,
                              respond: Network, decode: Decoder)
    requires p != Ollama && KeyOf(s, p) == Some("")
    ensures RequestFor(s, p, model, message).None?
    ensures StreamFor(s, p, model, message, respond, decode) == Stream([NotConfigured(p)], Completed)
  {
  }

  /** With its key present, an SSE provider streams the parsed answer to its own endpoint. */
  lemma ConfiguredStreamsUpstream(s: Settings, p: Provider, model: string, message: string,
                                  respond: Network, decode: Decoder)
    requires p != Ollama && KeyOf(s, p).Some? && KeyOf(s, p).value != ""
    ensures RequestFor(s, p, model, message).Some?
    ensures var req := RequestFor(s, p, model, message).value;
            req.url == ChatUrl(s, p) && req.key == KeyOf(s, p).value
            && StreamFor(s, p, model, message, respond, decode) == Parse(Sse, decode, respond(req))
  {
  }

  /** An unreachable Ollama server yields one connection-error fragment and a completed stream. */
  lemma OllamaUnreachable(s: Settings, model: string, message: string, respond: Network,
                          decode: Decoder, reason: string)
    requires respond(UpstreamRequest(ChatUrl(s, Ollama), "", model, message)) == Unreachable(reason)
    ensures StreamFor(s, Ollama, model, message, respond, decode) ==
              Stream([OllamaConnectionError(reason)], Completed)
  {
  }

  /** An SSE provider lets a connection error escape instead of signalling it in-band. */
  lemma SseConnectionErrorEscapes(s: Settings, p: Provider, model: string, message: string,
                                  respond: Network, decode: Decoder, reason: string)
    requires p != Ollama && RequestFor(s, p, model, message).Some?
    requires respond(RequestFor(s, p, model, message).value) == Unreachable(reason)
    ensures StreamFor(s, p, model, message, respond, decode) == Stream([], ConnectionError(reason))
  {
  }

  // ---------------------------------------------------------------------------
  // ping_provider
  // ---------------------------------------------------------------------------

  /** A `list_models_*` result: the dict it returned, or an exception it let escape. */
  datatype Listing = Listed(res: map<string, Json>) | ListingRaised(reason: string)

  /** The network part of a model listing (the HTTP GET and its parsing). */
  type Fetcher = Provider -> Listing

  function ModelEntry(id: string): Json {
    Obj(map["id" := Str(id), "name" := Str(id)])
  }

  function QwenDefaults(): seq<Json> {
    [ModelEntry("qwen-plus"), ModelEntry("qwen-turbo"), ModelEntry("qwen2-7b-instruct")]
  }

  function GenesisModels(): seq<Json> {
    [ModelEntry("llama-3.3-70b-instruct"), ModelEntry("llama-3.1-nemotron-70b-instruct"),
     ModelEntry("gemma-3-27b-it"), ModelEntry("granite-3.3-8b-instruct"),
     Obj(map["id" := Str("auto"), "name" := Str("auto (→ llama-3.3-70b-instruct)")])]
  }

  /** A listing that only warns: no models. */
  function Warned(warning: string): map<string, Json> {
    map["models" := Arr([]), "warning" := Str(warning)]
  }

  /** What `list_models_<provider>` returns; only the network calls go to `fetch`. */
  function ListModels(s: Settings, p: Provider, fetch: Fetcher): Listing {
    match p
    case OpenAI => if s.openaiKey == "" then Listed(Warned("OpenAI key missing")) else fetch(OpenAI)
    case OpenRouter =>
      if s.openrouterKey == "" then Listed(Warned("OpenRouter key missing")) else fetch(OpenRouter)
    case Qwen =>
      if s.qwenKey == "" then Listed(map["models" := Arr(QwenDefaults()),
                                         "warning" := Str("Qwen key missing (defaults shown)")])
      else Listed(map["models" := Arr(QwenDefaults())])
    case Ollama => fetch(Ollama)
    case Genesis =>
      if s.genesisKey == "" then Listed(Warned("Genesis key missing"))
      else Listed(map["models" := Arr(GenesisModels())])
  }

  /** The health verdict of one provider (latency is left out). */
  datatype Health = Health(ok: bool, status: Json, detail: Json)

  /** How `ping_provider` folds a listing dict into a verdict. */
  function Classify(res: map<string, Json>): (h: Health)
    ensures h.ok <==> Truthy(Get(res, "models")) && !Truthy(Get(res, "warning")) && !Truthy(Get(res, "error"))
    ensures "status" in res ==> h.status == res["status"]
    ensures "status" !in res ==>
              h.status == if Truthy(Get(res, "error")) || Truthy(Get(res, "warning")) then Num(503) else Num(200)
    ensures h.ok ==> h.status == GetOr(res, "status", Num(200))
  {
    var warning := Get(res, "warning");
    var error := Get(res, "error");
    var ok := Truthy(Get(res, "models")) && !Truthy(warning) && !Truthy(error);
    var detail := Or(Get(res, "detail"), Or(warning, Str("")));
    var status := if Truthy(error) then GetOr(res, "status", Num(503))
                  else if Truthy(warning) then GetOr(res, "status", Num(503))
                  else GetOr(res, "status", Num(200));
    Health(ok, status, detail)
  }

  /** `ping_provider(name)`: the exact name (not lower-cased) selects the listing. */
  function Ping(s: Settings, name: string, fetch: Fetcher): Health {
    match ProviderNamed(name)
    case None => Health(false, Num(400), Str("Unknown provider"))
    case Some(p) =>
      match ListModels(s, p, fetch)
      case ListingRaised(reason) => Health(false, Num(500), Str(reason))
      case Listed(res) => Classify(res)
  }

  /** The HTTP status of the `/ping/<provider>` response. */
  function PingCode(h: Health): Json {
    if h.ok then Num(200) else h.status
  }

  /** A provider is healthy exactly when its listing has models and neither a warning nor an error. */
  lemma PingOkIff(s: Settings, name: string, fetch: Fetcher)
    ensures Ping(s, name, fetch).ok <==>
              ProviderNamed(name).Some? && ListModels(s, ProviderNamed(name).value, fetch).Listed?
              && var res := ListModels(s, ProviderNamed(name).value, fetch).res;
                 Truthy(Get(res, "models")) && !Truthy(Get(res, "warning")) && !Truthy(Get(res, "error"))
  {
  }

  /** An unknown name is unhealthy with status 400, and the route answers 400. */
  lemma PingUnknown(s: Settings, name: string, fetch: Fetcher)
    requires name !in {"openai", "openrouter", "qwen", "gwen", "ollama", "genesis"}
    ensures Ping(s, name, fetch) == Health(false, Num(400), Str("Unknown provider"))
    ensures PingCode(Ping(s, name, fetch)) == Num(400)
  {
  }

  /** The detail is the listing's own detail, else its warning, else "". */
  lemma PingDetail(res: map<string, Json>)
    ensures Truthy(Get(res, "detail")) ==> Classify(res).detail == res["detail"]
    ensures !Truthy(Get(res, "detail")) && Truthy(Get(res, "warning")) ==> Classify(res).detail == res["warning"]
    ensures !Truthy(Get(res, "detail")) && !Truthy(Get(res, "warning")) ==> Classify(res).detail == Str("")
  {
  }

  /** Without a key, a keyed provider is reported unhealthy with 503 and the warning as detail. */
  lemma PingMissingKey(s: Settings, p: Provider, fetch: Fetcher)
    requires p != Ollama && KeyOf(s, p) == Some("")
    ensures var h := Ping(s, NameOf(p), fetch);
            !h.ok && h.status == Num(503) && PingCode(h) == Num(503) && h.detail.Str? && h.detail.s != ""
  {
    assert ProviderNamed(NameOf(p)) == Some(p);
    var l := ListModels(s, p, fetch);
    assert l.Listed? && "status" !in l.res && "detail" !in l.res
           && "warning" in l.res && l.res["warning"].Str? && l.res["warning"].s != "";
  }

  /** The built-in listings of Qwen and Genesis are healthy once the key is set, whatever the network does. */
  lemma PingBuiltInHealthy(s: Settings, name: string, fetch: Fetcher)
    requires name in {"qwen", "gwen", "genesis"}
    requires KeyOf(s, ProviderNamed(name).value) != Some("")
    ensures Ping(s, name, fetch) == Health(true, Num(200), Str(""))
    ensures PingCode(Ping(s, name, fetch)) == Num(200)
  {
  }

  // ---------------------------------------------------------------------------
  // load_design
  // ---------------------------------------------------------------------------

  type Section = map<string, string>

  function DefaultColors(): Section {
    map["ok" := "#9EFF6E", "warn" := "#FFC857", "err" := "#FF6B6B", "background" := "#0B0B10",
        "text" := "#E6E6EC", "text_dim" := "#9aa0a6", "primary" := "#4B9FFF", "surface" := "#13131A"]
  }

  function DefaultFonts(): Section {
    map["body" := "system-ui, Segoe UI, Roboto, Helvetica, Arial, sans-serif",
        "heading" := "Poppins, system-ui, sans-serif"]
  }

  function DefaultSpacing(): Section {
    map["unit" := "12px", "radius" := "10px"]
  }

  function DefaultComponents(): Section {
    map["sidebar_width" := "360px", "chat_width" := "1200px", "button_height" := "36px"]
  }

  /** The built-in design: four named sections. */
  function DefaultDesign(): map<string, Section> {
    map["colors" := DefaultColors(), "fonts" := DefaultFonts(),
        "spacing" := DefaultSpacing(), "components" := DefaultComponents()]
  }

  /**
   * `load_design.section`: the items of a section present in the design file
   * laid over the defaults; the defaults themselves when it is absent.
   */
  function SectionOf(ini: map<string, Section>, name: string, default: Section): (r: Section)
    ensures name !in ini ==> r == default
    ensures r.Keys == default.Keys + (if name in ini then ini[name].Keys else {})
    ensures name in ini ==> forall k :: k in ini[name] ==> r[k] == ini[name][k]
    ensures forall k :: k in default && (name !in ini || k !in ini[name]) ==> r[k] == default[k]
  {
    if name in ini then default + ini[name] else default
  }

  /** `load_design()`: each of the four sections merged over its defaults. */
  function LoadDesign(ini: map<string, Section>): (d: map<string, Section>)
    ensures d.Keys == DefaultDesign().Keys
    ensures forall name :: name in d ==> DefaultDesign()[name].Keys <= d[name].Keys
    ensures forall name :: name in d && name !in ini ==> d[name] == DefaultDesign()[name]
    ensures forall name, k :: name in d && name in ini && k in ini[name] ==>
              k in d[name] && d[name][k] == ini[name][k]
  {
    map name | name in DefaultDesign() :: SectionOf(ini, name, DefaultDesign()[name])
  }

  /** A design file with none of the four sections gives the built-in design. */
  lemma LoadDesignDefaults(ini: map<string, Section>)
    requires forall name :: name in DefaultDesign() ==> name !in ini
    ensures LoadDesign(ini) == DefaultDesign()
  {
  }
}
