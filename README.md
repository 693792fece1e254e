# MONKY hub, setup wizard and launcher — a Dafny model

This project models the logic at the heart of the MONKY / AIVA multi-provider
hub and the two scripts that configure and start it:

- **server.py**
  - the two streaming-response parsers: OpenAI-style server-sent events (SSE) and Ollama's newline-delimited JSON (NDJSON);
  - the per-provider `stream_*` wrappers with their missing-key guard;
  - the `/chat` handler's validation and dispatch;
  - `ping_provider`'s health classification, with the `/ping/<provider>` status code;
  - the section merge of `load_design`.
- **setup_wizard.py**
  - the nested-dict helpers `deep_update`, `get_nested` and `set_nested`;
  - `load_template_data`, which layers the defaults, the template file and the config file;
  - the `prompt` and `prompt_bool` answer rules;
  - the field tables;
  - the GUI's `save_config` and the command-line `run_cli_wizard`.
- **launch_monky.py**: the port search `find_available_port` and `ensure_server_port`, which picks the server's port and writes it back when it had to move.

Decoded JSON is the `Json` datatype (`json.dfy`). Python's truthiness, `dict.get` and `or` are written out over it.

Exceptions are result variants:
- a `Stream` ends `Completed`, `Crashed` or with a `ConnectionError`;
- `/chat` answers `Failed` for an HTTP 500;
- a port search ends in `Failed(...)`.

Everything outside the program is a parameter:
- `decode` stands for `json.loads`;
- `respond` is the network as one streaming POST sees it;
- `fetch` is a model listing's HTTP GET;
- `net` is the operating system's answer to `bind`: whether a host resolves, and whether a port binds;
- the typed answers and entry texts are plain inputs;
- credentials are a `Settings` value.

The modules:

| file | module | what it holds |
|---|---|---|
| `wrappers.dfy` | `Wrappers` | `Option` |
| `json.dfy` | `JsonValue` | `Json`, truthiness, `get`, `or` |
| `pytext.dfy` | `PyText` | `str.strip`, `startswith`, `lower`, `rstrip("/")`, `str(int)`, `int(str)` |
| `streams.dfy` | `Streams` | both parsers: line actions, the whole-body function, the loop methods |
| `gateway.dfy` | `Gateway` | providers, `stream_*`, `/chat`, `ping_provider`, `load_design` |
| `config_tree.dfy` | `ConfigTree` | the mutable `Dict` class with `GetNested`, `SetNested`, `DeepUpdate`; `Merge`, `SetPath`, `Lookup`; `load_template_data` |
| `wizard.dfy` | `Wizard` | `prompt`, `prompt_bool`, the field tables, `WizardApp.save_config`, `run_cli_wizard` |
| `launcher.dfy` | `Launcher` | `find_available_port`, `ensure_server_port` |

Three behaviours of the code that the contracts pin down:
- `/chat` rejects an unknown provider with 400.
- A missing key is not an HTTP error. The wrapper yields a single in-band fragment, `[<Provider> not configured]` followed by a newline, and makes no request.
- Ollama needs no key. Only Ollama's wrapper turns a connection error into a fragment. In the SSE providers the error escapes the generator.

## Model

| member | source | states |
|---|---|---|
| Streams.Run | server.py:497-519 | A body's line actions end the stream only by completing or by an exception; never with a connection error |
| Streams.YieldOpenAiSse | server.py:492-519 | The line-by-line SSE loop yields exactly what the whole-body specification `Parse(Sse, …)` says, for every upstream outcome |
| Streams.YieldOllamaStream | server.py:522-537 | The line-by-line NDJSON loop, including its early `break` and the exceptions it lets escape, equals `Parse(Ndjson, …)` |
| Streams.DriveIgnoresAfterEnd | server.py:503-504 | Once a line ends the stream (break or exception), no later line contributes anything |
| Streams.SseEndsOnlyAtDone | server.py:498-519 | An SSE line ends the stream if and only if it is `data: [DONE]` (whitespace allowed); SSE parsing never raises |
| Streams.SseDoneEndsStream | server.py:502-504 | Lines after `[DONE]` are ignored: the output is what the lines before it produced |
| Streams.SseSkipsLine | server.py:498-508 | A blank line (the separator after every event), a line without `data: `, or a frame other than `[DONE]` that does not decode or decodes to a falsy value is skipped, and dropping it anywhere in a body leaves the output unchanged |
| Streams.SseDeltaContents | server.py:492-519 | For a body of leading ignored lines, then events whose decoded chunks carry delta contents `cs` in their first choice (other keys such as `id`, `role` or `finish_reason` allowed, `delta: {}` counting as empty), each followed by ignored lines such as its blank separator, then `[DONE]`: the parser yields exactly the non-empty contents in order and completes, whatever follows; their concatenation is that of all contents |
| Streams.SseSeparatedEvents | server.py:498-512 | The usual body `data: <chunk>`, blank, `data: <chunk>`, blank, `data: [DONE]`, blank yields the two chunks' non-empty delta contents in order and completes |
| Streams.DeltaLinesActions | server.py:497-512 | Data lines whose decoded chunks carry delta contents `cs` act as those contents, in order: skip on an empty content, emit otherwise |
| Streams.DoneLineStops | server.py:503-504 | The `[DONE]` line stops the stream |
| Streams.DeltaLineAction | server.py:497-512 | A `data: ` line whose payload decodes to any chunk carrying delta content `c` emits `c` when non-empty and is skipped otherwise |
| Streams.DeltaFrameYieldsContent | server.py:506-512 | Any chunk whose first choice has a dict `delta` (or none) with content `c` is truthy and yields exactly `c` when it is non-empty, nothing otherwise |
| Streams.MessageIgnoredWithoutDelta | server.py:509-512 | A first choice without `delta` falls back to `{}` and yields nothing, whatever its `message` holds |
| Streams.MessageUsedWhenDeltaRaises | server.py:509-519 | When the delta path raises (a non-dict `delta`, or a truthy non-string `content`), a non-empty string `message.content` is yielded |
| Streams.MessageUsedOnlyWhenDeltaRaises | server.py:509-519 | For every frame: when the delta path yields or stays quiet it alone decides; only when it raises does `message.content` decide, and a raise there is skipped |
| Streams.HttpErrorIsOneFragment | server.py:493-497 | A non-200 response yields exactly the one fragment `[HTTP <status>] <body>`, ignores the body's lines and completes |
| Streams.NdjsonYieldsResponse | server.py:534-537 | An NDJSON object with a non-empty string `response` yields that response, and ends the stream after it exactly when its `done` is truthy; otherwise the stream goes on |
| Streams.NdjsonDoneEndsStream | server.py:533-537 | A line with a truthy `done` yields its own response (if any) and ends the stream; later lines are ignored |
| Streams.NdjsonNonObjectCrashes | server.py:529-534 | A truthy decoded line that is not an object makes the generator raise, keeping only earlier fragments |
| Gateway.ProviderNamed | server.py:832-843 | Exactly the six names `openai`, `openrouter`, `qwen`, `gwen`, `ollama`, `genesis` select a provider; `qwen` and `gwen` both select Qwen |
| Gateway.DefaultModel | server.py:832-841 | Every provider has a non-empty default model |
| Gateway.NameOf | server.py:683-692 | Each provider's own name selects it in `ping_provider` |
| Gateway.RequestFor | server.py:540-601 | A wrapper makes no request exactly when its key is empty; otherwise it posts to its own endpoint with the model and message unchanged |
| Gateway.TextField | server.py:826-828 | `(data.get(k) or "")` gives a string only when the value is a string or falsy; a falsy value gives "" and a truthy string is itself |
| Gateway.ChatOfBody | server.py:825-843 | A body holding three strings is decided on those strings |
| Gateway.BlankMessageRejected | server.py:828-830 | A message that is whitespace only is answered with 400 "empty message" before any dispatch |
| Gateway.ChatDispatchesIff | server.py:826-845 | A request is streamed if and only if its stripped message is non-empty and its lower-cased provider is known; the message is passed stripped |
| Gateway.UnknownProviderRejected | server.py:842-843 | An unknown provider name is answered with 400 "unknown provider" |
| Gateway.BlankModelDefaults | server.py:832-841 | A blank model is replaced by the provider's default; otherwise the stripped model is used; it is never empty |
| Gateway.ProviderCaseInsensitive | server.py:825-843 | Two `/chat` requests whose provider names differ only in ASCII case get the same decision and the same response; a name that lower-cases to `gwen` or `qwen` with a non-blank message is dispatched to Qwen |
| Gateway.NonObjectBodyFails | server.py:825-826 | A body that is not a JSON object makes the handler raise (HTTP 500) |
| Gateway.MissingKeyOneFragment | server.py:540-543 | A keyed provider without a key yields exactly `[<Provider> not configured]\n` and makes no request |
| Gateway.ConfiguredStreamsUpstream | server.py:544-549 | With its key set, an SSE provider streams the SSE parse of its own endpoint's answer |
| Gateway.OllamaUnreachable | server.py:581-589 | An unreachable Ollama yields one `[Ollama connection error] …` fragment and completes |
| Gateway.SseConnectionErrorEscapes | server.py:546-549 | An SSE provider's connection error escapes the generator with no fragment |
| Gateway.Classify | server.py:697-708 | `ok` holds if and only if there are models and no warning or error; status is the listing's own, else 503 on a warning or error, else 200 |
| Gateway.PingOkIff | server.py:680-708 | A provider is healthy if and only if its name is known and its listing has models and neither a warning nor an error |
| Gateway.PingUnknown | server.py:693-695 | An unknown name is unhealthy with status 400 and "Unknown provider", and the route answers 400 |
| Gateway.PingDetail | server.py:701 | The detail is the listing's detail, else its warning, else "" |
| Gateway.PingMissingKey | server.py:604-606 | A keyed provider without a key is unhealthy with status 503 and a non-empty warning as detail |
| Gateway.PingBuiltInHealthy | server.py:640-673 | With a key, Qwen and Genesis answer from built-in lists: healthy with status 200 whatever the network does |
| Gateway.SectionOf | server.py:125-130 | A section present in the design file overrides the defaults key by key; every default key stays present |
| Gateway.LoadDesign | server.py:132-137 | The design has exactly the four sections; each section keeps its default keys and takes the file's values |
| Gateway.LoadDesignDefaults | server.py:120-137 | A design file without the four sections gives the built-in design |
| ConfigTree.Merge | setup_wizard.py:116-124 | The merged dict has exactly the keys of the base and of the override |
| ConfigTree.MergeOneMore | setup_wizard.py:119-123 | Merging one more key of the override replaces that key alone |
| ConfigTree.Dict.GetNested | setup_wizard.py:146-152 | Returns the value at the path when every step meets a dict holding the key, else the default |
| ConfigTree.Dict.SetNested | setup_wizard.py:155-165 | The new dict is the old one with the value written at the path, creating or replacing non-dict intermediates; the empty path changes nothing |
| ConfigTree.Dict.DeepUpdate | setup_wizard.py:116-124 | Updates the dict in place to the recursive merge and returns the same dict |
| ConfigTree.GetAfterSet | setup_wizard.py:155-165 | Reading a path just written gives the value written |
| ConfigTree.SetFrame | setup_wizard.py:155-165 | Writing one path leaves every path that parts ways with it unchanged |
| ConfigTree.SetOfGet | setup_wizard.py:146-165 | Writing back the value a path already holds changes nothing |
| ConfigTree.SetEmptyPath | setup_wizard.py:156-158 | Setting along the empty path changes nothing |
| ConfigTree.MergeLeafWins | setup_wizard.py:119-123 | Every non-dict value of the override is found at the same path after the merge |
| ConfigTree.MergeKeepsBase | setup_wizard.py:119-123 | A base value at a path the override does not reach survives the merge |
| ConfigTree.MergeIdempotent | setup_wizard.py:116-124 | Merging a dict into itself changes nothing |
| ConfigTree.FlatMergeIsUpdate | setup_wizard.py:119-123 | An override without nested dicts is a plain `dict.update` |
| ConfigTree.LoadTemplateData | setup_wizard.py:127-143 | Returns a fresh dict: the defaults merged with the template file's dict, then the config file's, skipping files that are missing, unreadable or not a dict |
| ConfigTree.ConfigFileWins | setup_wizard.py:136-141 | The config file's leaves win over the template file and the defaults |
| ConfigTree.TemplateFileWins | setup_wizard.py:129-134 | Where the config file does not reach, the template file's leaves win over the defaults |
| ConfigTree.DefaultSurvives | setup_wizard.py:128 | A default survives where neither file reaches it |
| Wizard.Prompt | setup_wizard.py:315-322 | A blank or missing answer gives the default; otherwise the stripped answer, which is non-empty and already stripped |
| Wizard.PromptReentered | setup_wizard.py:315-322 | Typing back what `prompt` returned gives the same value, whatever the default |
| Wizard.PromptBool | setup_wizard.py:325-333 | A blank answer gives the default; otherwise yes exactly when the lower-cased answer is `y`, `yes`, `1` or `true` |
| Wizard.PromptBoolIgnoresCase | setup_wizard.py:328 | Answers differing only in ASCII case read the same |
| Wizard.FieldSlotsListed | setup_wizard.py:72-113 | The two tables write exactly the listed config slots, in order |
| Wizard.FieldsSeparated | setup_wizard.py:72-113 | No field's path is a prefix of another's, so every field owns its own slot |
| Wizard.EntryPathsNonEmpty | setup_wizard.py:72-106 | Every entry field names at least one key |
| Wizard.SlotsSeparated | setup_wizard.py:72-113 | The listed slots are pairwise separated |
| Wizard.ApplyAllFrame | setup_wizard.py:155-165 | Writes at paths that part ways with `q` leave `q` unchanged |
| Wizard.ApplyAllAt | setup_wizard.py:155-165 | With separated paths, slot `i` ends up holding its own write, or its old value when there is none |
| Wizard.GuiAbortsIff | setup_wizard.py:278-285 | The GUI save stops if and only if some integer entry holds non-blank text that `int` rejects |
| Wizard.GuiEntriesWrites | setup_wizard.py:272-289 | A save that goes through is the writes of every entry, in order |
| Wizard.SaveEntries | setup_wizard.py:272-289 | The entry loop on the dict equals its specification, including where it stops |
| Wizard.SaveToggles | setup_wizard.py:291-292 | Each checkbox state is stored as a boolean at its path |
| Wizard.WizardApp.constructor | setup_wizard.py:185 | The wizard keeps the dict it loaded, by reference |
| Wizard.WizardApp.SaveConfig | setup_wizard.py:270-294 | A rejected integer entry stops the save: the entries before it stay in the dict and nothing is written. Otherwise the entries and then the checkboxes are stored and the whole dict is written |
| Wizard.GuiOutcome | setup_wizard.py:272-292 | After a save that goes through, each entry's slot holds its stripped text or its integer; a blank integer entry keeps the previous value |
| Wizard.GuiFieldOutcome | setup_wizard.py:272-292 | `GuiOutcome` for the wizard's own tables |
| Wizard.AskEntry | setup_wizard.py:342-357 | One entry question writes the stripped answer, or its integer. The current value is the default. A blank or rejected answer keeps the field |
| Wizard.AskEntries | setup_wizard.py:342-357 | The entry loop on the dict equals its specification |
| Wizard.AskToggles | setup_wizard.py:359-362 | Each yes/no question stores its answer; it defaults to the current flag, which is `True` when absent |
| Wizard.AskAll | setup_wizard.py:342-362 | Every entry question, then every yes/no question |
| Wizard.RunCliWizard | setup_wizard.py:336-364 | Writes the loaded configuration after every entry question and every yes/no question |
| Wizard.CliWriteFrame | setup_wizard.py:344-357 | A question's write does not depend on writes at paths that part ways with its own |
| Wizard.CliWrites | setup_wizard.py:342-357 | One write per question |
| Wizard.CliWritesAt | setup_wizard.py:342-357 | The `i`-th write is the `i`-th question's |
| Wizard.CliWritesFrame | setup_wizard.py:342-357 | Questions at paths apart from `p` write the same after a write at `p` |
| Wizard.CliEntriesWrites | setup_wizard.py:342-357 | With separated fields, no answer affects another field: the loop is each question's write, each asked on the starting config |
| Wizard.CliOutcome | setup_wizard.py:342-357 | After the entry questions, each field holds its own question's write, or what it held |
| Wizard.CliFieldOutcome | setup_wizard.py:342-357 | `CliOutcome` for the wizard's own entry table |
| Wizard.CliRejectedIntKeeps | setup_wizard.py:351-355 | An integer field whose answer `int` rejects is left unchanged |
| Wizard.CliBlankKeeps | setup_wizard.py:344-350 | Pressing Enter keeps a string field's string and an integer field's integer (`int(str(n)) == n`) |
| Wizard.CliBlankRewritesAsText | setup_wizard.py:344-358 | A string field that holds a number is overwritten with that number's text on a blank answer |
| Launcher.FindAvailablePort | launch_monky.py:38-48 | Returns the search result `FirstFit`, which follows `bind`'s order of checks: host type, C-int port, host resolution (an OS error), port range, bind. It probes `start, start+1, …`, at most `attempts` of them; a found port is the last probe; giving up means every candidate was probed |
| Launcher.FoundIsFirstFit | launch_monky.py:38-48 | A found port lies in `start .. start+attempts-1`, is valid, its host resolves and it binds, and every earlier candidate was refused with an OS error |
| Launcher.NoOpenPortIff | launch_monky.py:38-48 | The search raises its own RuntimeError if and only if there are no attempts or every candidate is refused with an OS error (host unresolved, or a valid port that does not bind) |
| Launcher.UnresolvedHostExhausts | launch_monky.py:40-47 | A host that does not resolve makes every probe an OS error, so the search ends in RuntimeError even for ports above 65535 |
| Launcher.NoOverflowInRange | launch_monky.py:38-48 | With a string host and all candidates in 0..65535, neither OverflowError nor TypeError escapes |
| Launcher.HostMustBeText | launch_monky.py:38-48 | A host that is not a string raises TypeError on the first probe |
| Launcher.PortReadsBack | launch_monky.py:54 | A port stored as a number or as its decimal text reads back as that port; `null`, lists and dicts make `int` raise |
| Launcher.EnsureServerPort | launch_monky.py:51-60 | Adds the server section if missing, chooses the first free port from the desired one, and stores and saves it exactly when it differs from the desired port |
| Launcher.ChosenPortBinds | launch_monky.py:51-60 | A chosen port lies within the 20 candidates from the desired one, is valid, and binds on the configured host, which resolves |
| Launcher.FreeDesiredPortKept | launch_monky.py:51-60 | The desired port is kept whenever it binds |
| Launcher.EmptySectionDefaults | launch_monky.py:52-54 | A configuration without a server section asks for 127.0.0.1:5050 |
| PyText.StripRemovesOnlyEnds | server.py:502 | `strip` returns the slice of its input left after removing only whitespace at both ends, and the result neither starts nor ends with whitespace |
| PyText.StripEmpty | setup_wizard.py:320 | Stripping gives "" exactly when every character is whitespace |
| PyText.LowerFolds | server.py:826 | Lower-casing leaves no ASCII capital, keeps every other character and is idempotent |
| PyText.RStripSlashes | server.py:573 | Only trailing `/` characters are removed, and the result does not end with one |
| PyText.DecimalRoundTrip | setup_wizard.py:345-353 | `int(str(n)) == n` for every integer (the interpreter's digit limit is left out) |

## Left out

- Floating-point JSON numbers are left out; `Json` numbers are integers. `int()` of a float, which truncates, is therefore not modelled.
- `int()` accepts non-ASCII digits, but the model does not. `str.lower()` is modelled for ASCII letters only.
- Streamed fragments are bytes (`.encode()`) in the source but text in the model. The HTTP error body is assumed already decoded.
- Nothing is modelled about a response body before a non-200 status is seen, and no read error in the middle of a stream is modelled. An `Unreachable` upstream means no response at all.
- The request headers and JSON payload sent upstream are left out, as are the client options: timeouts, SSL verification and CA bundle.
- The HTTP calls inside `list_models_openai`, `list_models_openrouter` and `list_models_ollama` are left out. The filtering and error dicts of those calls are the `fetch` oracle. The keyless warnings and the built-in Qwen and Genesis lists are modelled.
- `Gateway.Classify`: the measured latency `latency_ms` is left out, since it comes from a clock.
- `/ping/all`, `/uptime`, `/config`, `/storage/test`, asset writing, the tray icon, the hub GUI and its controller are outside the modelled core.
- Environment variables are not read. Their values are the `Settings` value, with "" for a missing key.
- `configparser` details are left out: key lower-casing, interpolation and the `DEFAULT` section. The design file is a map from section to items.
- `str()` of a list or dict, shown as a CLI default, is the `show` parameter.
- Tk widgets, message boxes, browse buttons, `after`/`destroy` and `auto_launch` are left out. So are starting the launcher process, threads and the `print` output.
- `write_config` and the launcher's `save_config` are returned values rather than file writes.
- `ConfigTree.Dict.DeepUpdate`: the order of keys in the merged dict is not modelled, since maps are unordered. Nor is aliasing: `deep_update` shares the override's nested dicts with the base instead of copying them.
- Nested dicts are values inside the one mutable `Dict` object. `set_nested` writes through shared sub-dicts in the source, but that sharing is not modelled.
- Launcher.FindAvailablePort: the socket options and the closing of each probe socket are left out. A host that IDNA encoding rejects raises `UnicodeError` in `bind`, which escapes the search; the model treats such a host as one that does not resolve, an OS error the search moves past.
- PyText.ParseInt and PyText.IntToDecimal: the interpreter's limit of 4300 decimal digits for `int(str)` and `str(int)` is left out; beyond it both raise `ValueError`, so the wizard would reject such an answer and fail to show such a stored integer.
- PyText.DecimalRoundTrip: stated for every integer; it holds in the source only below the 4300-digit limit.
- `ensure_server_port` itself is modelled, but the launcher's `main`, its server process, its health wait and its opening of the browser are not.
