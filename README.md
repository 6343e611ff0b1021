# tweaks — a Dafny model of the paste-a-tweak core

Tweaks is a macOS menu-bar app. A global hotkey (⌃T by default) takes the text on the
clipboard. The app sends it to a local Osaurus inference server with a system prompt, and
pastes the streamed reply into the frontmost app a few characters at a time. When the paste
is over it puts the original text back on the clipboard. A HUD offers up to four "quick
tweak" actions, chosen with the digits 1–4, each with its own prompt.

The model covers these parts of the app:

- **The Osaurus client SDK** (`Osaurus`, `LegacyOsaurus`):
  - instance discovery in `SharedConfiguration/`, and the base-URL precedence of `init` and `make`;
  - how requests are built (URL normalisation, headers, JSON bodies) and how responses are checked;
  - the server-sent-events line reader of `createStream`;
  - `tweak` and `tweakStream`, and the model-name prettifier.
- **The settings stores** (`Settings`, `LegacySettings`): system prompts with their default and active prompt, the model list and the selected model, the quick slots, and prompt composition.
- **The paste flow** (`TweakService`, `AppDelegate.PasteTweakedText`):
  - the chunk-coalescing loop;
  - the paste, fallback and clipboard-restore sequence, written as a log of effects;
  - the loading indicator's reference count (`HotkeyFeedback`).
- **The hotkey** (`AppDelegate`, `ContentView`, `ShortcutUtils`, `ShortcutRecorder`): its persistence in `UserDefaults`, its registration, its display string and its recorder.
- **The quick-tweak HUD** (`QuickTweakMenu`): the actions it offers, the global digit tap, the HUD's own key handler, and the presenter's window, tap and focus state.
- **The accessibility permission tracker** (`PermissionManager`).

Some source objects update their own fields: the settings managers, the feedback manager,
the permission manager, the HUD presenter, the app delegate and the recording view. These
are Dafny classes whose methods state the whole new state. The rest is pure functions,
each stated against the properties the source promises, with lemmas relating them.

The outside world comes in as parameters:

- the directory listing and the process environment;
- Foundation's URL and date parsers, and the JSON chunk decoder;
- HTTP replies;
- whether the process is trusted for accessibility;
- whether Carbon accepted a hotkey, and whether an event tap could be created.

Clipboard writes, synthetic key presses and requests are returned as a `seq<Effect>` log.

Code that the repository holds twice with the same behaviour is modelled once:

- `tweaks/ContentView.swift:668-712` repeats `shortcutDisplayString` and `keyCodeToString` (module `ShortcutUtils`).
- `tweaks/ContentView.swift:618-664` repeats the recording view (module `ShortcutRecorder`).
- The legacy model list's `displayName` (`tweaks/SettingsManager.swift:20-28`) repeats the current one (`Osaurus.DisplayName`).
- The legacy client's `init`, response checks, stream loop and `tweak` trimming (`tweaks/Osaurus.swift:75-92`, `119-124`, `149-191`, `206-224`) repeat the current client's (module `Osaurus`).

Where the code and its description differ, the model follows the code:

- **Non-HTTP responses.** The legacy `fetchAvailableModels` reports `httpError(0)` for a non-HTTP response. The current client reports `invalidResponse`. `LegacySettings.LegacyListModelsAgrees` states the difference.
- **Two endpoint builders.** The two copies of the client build endpoint URLs differently: `url(path:)` versus `appendingPathComponent`. `LegacyOsaurus.LegacyUrlAgrees` shows they agree for the path-less base URLs the app actually uses.

## Model

| member | source | states |
|---|---|---|
| Osaurus.Candidate | tweaks/AI/Osaurus.swift:175-223 | an entry yields an instance exactly when it is a directory whose descriptor decodes, is running and has an address and a port |
| Osaurus.Candidates | tweaks/AI/Osaurus.swift:177-223 | the reference definition of the scan: each entry's candidate, in enumeration order (its properties are `CandidatesAppend`, `SkippedEntryIsIgnored`, `CandidateOrigin`) |
| Osaurus.Latest | tweaks/AI/Osaurus.swift:225-228 | the chosen candidate is one of the candidates and no candidate has a later timestamp |
| Osaurus.DiscoverLatestRunningInstance | tweaks/AI/Osaurus.swift:159-229 | the loop succeeds exactly when the listing exists and the scan has a candidate, and then returns a latest candidate; otherwise `discoveryFailed` |
| Osaurus.CandidatesAppend | tweaks/AI/Osaurus.swift:175-223 | scanning two listings one after the other gives the two candidate lists concatenated |
| Osaurus.SkippedEntryIsIgnored | tweaks/AI/Osaurus.swift:176-190 | an entry that is not a directory, lacks a descriptor or is ineligible has no effect on the candidates |
| Osaurus.CandidateOrigin | tweaks/AI/Osaurus.swift:175-223 | every candidate comes from some entry of the listing |
| Osaurus.CandidateFields | tweaks/AI/Osaurus.swift:192-208 | a candidate's timestamp is the parsed `updatedAt`, else the directory's modification date, else the distant past; its URL is the parsed `url`, else `http://address:port` |
| Osaurus.SingleCandidateWins | tweaks/AI/Osaurus.swift:175-228 | a listing with exactly one eligible entry discovers that entry |
| Osaurus.IsRunning | tweaks/AI/Osaurus.swift:232-239 | running exactly when discovery would succeed |
| Osaurus.Init | tweaks/AI/Osaurus.swift:122-139 | the explicit URL wins; then a parseable `OSAURUS_BASE_URL`; then `http://localhost:1337` |
| Osaurus.Make | tweaks/AI/Osaurus.swift:142-154 | a parseable `OSAURUS_BASE_URL` is used without discovery; otherwise the discovered instance's URL, or `discoveryFailed` |
| Osaurus.NormalizedPath | tweaks/AI/Osaurus.swift:258-263 | the path always starts with `/`; one slash is added only when it is missing |
| Osaurus.Endpoint | tweaks/AI/Osaurus.swift:258-263 | the base's scheme, host and port are kept, and the normalised path follows the base path |
| Osaurus.EndpointNormalization | tweaks/AI/Osaurus.swift:258-263 | `p` and `/p` name the same endpoint |
| Osaurus.BuildRequest | tweaks/AI/Osaurus.swift:266-277 | method and URL as given; `Content-Type: application/json`; `Accept` exactly when asked for; `Authorization: Bearer <key>` exactly when the key is set and non-empty; no other header |
| Osaurus.CompletionRequest | tweaks/AI/Osaurus.swift:291-303 | a POST to `/v1/chat/completions` without `Accept`, whose body is the non-streaming completion; JSON content type, `Authorization: Bearer <key>` exactly when a non-empty key is set, and no other header |
| Osaurus.StreamRequest | tweaks/AI/Osaurus.swift:313-330 | a POST to `/v1/chat/completions` with `Accept: text/event-stream`, whose body has `stream: true`; JSON content type, `Authorization: Bearer <key>` exactly when a non-empty key is set, and no other header |
| Osaurus.ModelsRequest | tweaks/AI/Osaurus.swift:422-423 | a GET to `/v1/models` without a body or `Accept`; JSON content type, `Authorization: Bearer <key>` exactly when a non-empty key is set, and no other header |
| Osaurus.Validate | tweaks/AI/Osaurus.swift:303-309 | a transport error propagates; a non-HTTP response is `invalidResponse`; a non-2xx status is `httpError(status)`; a 2xx reply decodes or fails decoding |
| Osaurus.StatusBeforeDecode | tweaks/AI/Osaurus.swift:304-308 | a failing status decides the outcome whatever the body holds |
| Osaurus.ListModels | tweaks/AI/Osaurus.swift:422-431 | the `data` array in server order exactly when the response checks pass, otherwise their error |
| Osaurus.CheckHealth | tweaks/AI/Osaurus.swift:242-255 | a probe is sent exactly when discovery succeeds, and goes to a latest candidate's `/v1/models`; healthy exactly when that probe returns 2xx |
| Osaurus.DisplayNameDropsHyphens | tweaks/AI/Osaurus.swift:97-104 | without a 4 or an 8 in the id, the display name has no hyphen |
| Osaurus.DisplayName | tweaks/AI/Osaurus.swift:97-104 | the six replacements in the source's order (its properties are `DisplayNameDropsHyphens`, `LlamaDisplayName`, `DisplayNameKeepsPlainId` and `DisplayNameQuantizedLlama`) |
| Osaurus.DisplayNameKeepsPlainId | tweaks/AI/Osaurus.swift:97-104 | an id with none of the characters that start a pattern (`l`, `-`, `i`, `4`, `8`, `f`) is shown unchanged, so the replacements touch only their patterns |
| Osaurus.DisplayNameQuantizedLlama | tweaks/AI/Osaurus.swift:97-104 | `llama-<x>-8bit` is shown as `Llama <x> (8-bit)` for a plain `x`: `llama-` is capitalized before the other hyphens become spaces, and the hyphen that `(8-bit)` writes later survives |
| Osaurus.LlamaDisplayName | tweaks/AI/Osaurus.swift:97-98 | a `llama-` id is displayed starting with `Llama ` |
| Osaurus.ClassifyPayload | tweaks/AI/Osaurus.swift:343-353 | `[DONE]` alone ends the stream; a payload yields exactly when it decodes with a non-empty first delta, and yields that delta |
| Osaurus.ClassifyLine | tweaks/AI/Osaurus.swift:341-364 | lines without `data:` are skipped; the others are classified by their trimmed payload; a yield is never empty |
| Osaurus.DeltasAreNonEmpty | tweaks/AI/Osaurus.swift:351-352 | the stream never yields an empty delta |
| Osaurus.Deltas | tweaks/AI/Osaurus.swift:340-364 | the reference definition of the line loop: the yielded deltas up to the first `[DONE]` (its properties are the `Deltas…` lemmas) |
| Osaurus.DeltasOrigin | tweaks/AI/Osaurus.swift:340-365 | every yielded delta is the yield of some line |
| Osaurus.DeltasStep | tweaks/AI/Osaurus.swift:340-365 | one step of the line loop: a skipped line adds nothing, a yield prepends its delta, `[DONE]` stops |
| Osaurus.NoDoneExtends | tweaks/AI/Osaurus.swift:340-346 | a line that is not `[DONE]` keeps the prefix read so far free of `[DONE]` |
| Osaurus.DeltasAppend | tweaks/AI/Osaurus.swift:340-365 | the deltas of concatenated lines are concatenated while no `[DONE]` intervenes |
| Osaurus.SkippedLineIsIgnored | tweaks/AI/Osaurus.swift:341-362 | a skipped line (no prefix, or an undecodable chunk) does not change the deltas |
| Osaurus.DoneEndsStream | tweaks/AI/Osaurus.swift:344-346 | nothing after `[DONE]` is read |
| Osaurus.ExpectedStreamOfSuccess | tweaks/AI/Osaurus.swift:332-366 | a 2xx stream read to its end yields its lines' deltas and finishes normally |
| Osaurus.ExpectedStream | tweaks/AI/Osaurus.swift:332-369 | the reference definition of the producer task: transport and status failures yield nothing, a 2xx stream yields `Deltas` and finishes |
| Osaurus.ConsumeStream | tweaks/AI/Osaurus.swift:331-370 | the producer loop delivers exactly the expected stream; without a 2xx response nothing is yielded and the stream fails |
| Osaurus.PayloadOfDataLine | tweaks/AI/Osaurus.swift:342-343 | `data: p` carries the payload `p` |
| Osaurus.DeltasCons | tweaks/AI/Osaurus.swift:340-365 | the loop on a first line and the rest: a skip adds nothing, a yield comes first, `[DONE]` stops |
| Osaurus.ScenarioLines | tweaks/AI/Osaurus.swift:342-353 | how each line of the exchange below is classified: chunks yield, a blank line and an undecodable frame are skipped, `[DONE]` ends |
| Osaurus.SixLineDeltas | tweaks/AI/Osaurus.swift:340-365 | a yield, two skips, a yield, `[DONE]` and a late line deliver the two yields only |
| Osaurus.StreamScenario | tweaks/AI/Osaurus.swift:340-365 | a chunk, a blank line, an undecodable frame, a second chunk and `[DONE]` followed by more lines yield exactly the two deltas |
| Osaurus.TweakRequest | tweaks/AI/Osaurus.swift:386-397 | a completion request whose conversation is the system prompt then the user text |
| Osaurus.TweakStreamRequest | tweaks/AI/Osaurus.swift:407-419 | a POST for the given model with the same conversation and URL as `tweak`, streamed with `stream: true` and `Accept: text/event-stream` |
| Osaurus.TweakReply | tweaks/AI/Osaurus.swift:396-403 | response errors propagate; otherwise the first choice's content trimmed of whitespace and newlines, or `invalidResponse` when it is missing or blank |
| Osaurus.BlankReplyIsInvalid | tweaks/AI/Osaurus.swift:398-401 | an all-whitespace reply is `invalidResponse`, never an empty string |
| LegacyOsaurus.AppendingPathComponent | tweaks/Osaurus.swift:109 | the base's scheme, host and port are kept, and the new path is the base path, exactly one `/`, then the component without its leading `/` |
| LegacyOsaurus.LegacyCompletionRequest | tweaks/Osaurus.swift:106-117 | a POST to the appended completions path with `Content-Type: application/json`, and `Authorization: Bearer <key>` exactly when a non-empty key is set; no other header |
| LegacyOsaurus.LegacyStreamRequest | tweaks/Osaurus.swift:129-147 | a POST to the appended completions path with `Content-Type: application/json`, `Accept: text/event-stream`, and `Authorization: Bearer <key>` exactly when a non-empty key is set; no other header; the body has `stream: true` |
| LegacyOsaurus.LegacyUrlAgrees | tweaks/Osaurus.swift:134 | for a base URL without a path, appending `/v1/chat/completions` gives the current client's endpoint |
| LegacyOsaurus.LegacyCompletionAgrees | tweaks/Osaurus.swift:106-117 | for such a base URL the legacy completion request equals the current one |
| LegacyOsaurus.LegacyStreamAgrees | tweaks/Osaurus.swift:129-147 | for such a base URL the legacy streaming request equals the current one |
| LegacyOsaurus.LegacyTweakRequest | tweaks/Osaurus.swift:206-224 | the same conversation as the current `tweak` |
| LegacyOsaurus.LegacyTweakStreamRequest | tweaks/Osaurus.swift:227-239 | the same conversation, as a streaming request |
| Settings.FirstIndexOf | tweaks/Settings/SettingsManager.swift:157 | the first index holding the id, and `None` exactly when no prompt has it |
| Settings.FirstWithId | tweaks/Settings/SettingsManager.swift:189-191 | the first prompt with the id, and `None` exactly when the id is absent or unset |
| Settings.FirstDefault | tweaks/Settings/SettingsManager.swift:174 | the first default prompt, and `None` exactly when there is none |
| Settings.WithoutIdKeepsOthers | tweaks/Settings/SettingsManager.swift:170 | `removeAll` drops exactly the prompts with the id and keeps the others in order |
| Settings.WithoutId | tweaks/Settings/SettingsManager.swift:170 | the reference definition of `removeAll { $0.id == id }` (its property is `WithoutIdKeepsOthers`) |
| Settings.WithoutIdKeepsDistinct | tweaks/Settings/SettingsManager.swift:170 | removing prompts keeps the remaining ids distinct |
| Settings.ActiveAfterDelete | tweaks/Settings/SettingsManager.swift:173-179 | an active id other than the deleted one stays; a deleted active id moves to the first default, else the first prompt, else is kept |
| Settings.DeletionSparesDefaults | tweaks/Settings/SettingsManager.swift:164-170 | when prompt ids are distinct, a deletion never removes a default prompt |
| Settings.ComposeSystemPrompt | tweaks/Settings/SettingsManager.swift:201-208 | the base prompt alone for a missing or blank instruction; otherwise the base prompt, a blank line and the trimmed instruction |
| Settings.ComposeIgnoresSurroundingWhitespace | tweaks/Settings/SettingsManager.swift:203 | an instruction and its trimmed form compose the same prompt |
| Settings.DecodeSlot | tweaks/Settings/SettingsManager.swift:50-57 | a slot without a number fails to decode; missing texts decode as empty and a missing flag as enabled |
| Settings.SlotRoundTrip | tweaks/Settings/SettingsManager.swift:50-66 | decoding an encoded slot gives the slot back |
| Settings.DecodeSlots | tweaks/Settings/SettingsManager.swift:278 | an array decodes exactly when every element does, and keeps their order |
| Settings.InRange | tweaks/Settings/SettingsManager.swift:283 | the filter keeps exactly the slots numbered 1 to 4, in order |
| Settings.InRangeKeeps | tweaks/Settings/SettingsManager.swift:283 | the filter mirrors `InSlotRange` element by element and never grows the list |
| Settings.SortedByNumberAllPairs | tweaks/Settings/SettingsManager.swift:284 | adjacent-pair order implies order between any two slots |
| Settings.InsertByNumber | tweaks/Settings/SettingsManager.swift:284 | inserting into a sorted list keeps it sorted and adds exactly the one slot |
| Settings.SortByNumber | tweaks/Settings/SettingsManager.swift:284 | the result is sorted by number and is a permutation of the input |
| Settings.SortSortedIsIdentity | tweaks/Settings/SettingsManager.swift:284 | sorting an already sorted list returns it unchanged |
| Settings.InRangeOfInRange | tweaks/Settings/SettingsManager.swift:283 | filtering twice is filtering once |
| Settings.Sanitize | tweaks/Settings/SettingsManager.swift:281-287 | a sanitized list is exactly 4 in-range slots, sorted, made from a permutation of the in-range input; it is accepted exactly when there are 4 in-range slots |
| Settings.SanitizeKeepsTable | tweaks/Settings/SettingsManager.swift:281-287 | a sorted table of four in-range slots passes through unchanged |
| Settings.SanitizeAcceptsRepeatedNumbers | tweaks/Settings/SettingsManager.swift:281-287 | four slots numbered 1, 1, 2 and 3 pass sanitization, and no slot of the result is numbered 4, so the four slots need not be numbered 1 to 4 |
| Settings.DefaultQuickSlotsWellFormed | tweaks/Settings/SettingsManager.swift:212-247 | the built-in slots are four enabled slots numbered 1 to 4 in order |
| Settings.DefaultQuickSlotsSanitized | tweaks/Settings/SettingsManager.swift:212-247 | the built-in slots pass sanitization unchanged |
| Settings.LoadedSlots | tweaks/Settings/SettingsManager.swift:110-114 | always four slots; a stored array that sanitizes is used, anything else gives the built-in slots |
| Settings.UpdatedSlot | tweaks/Settings/SettingsManager.swift:257-262 | each given field replaces the slot's, each missing one keeps it, and the number never changes |
| Settings.FirstSlotIndex | tweaks/Settings/SettingsManager.swift:256 | the first index with the number, and `None` exactly when no slot has it |
| Settings.InsertById | tweaks/Settings/SettingsManager.swift:126 | inserting into a list sorted by id keeps it sorted and adds exactly the one model |
| Settings.SortModels | tweaks/Settings/SettingsManager.swift:126 | the fetched models sorted by id, and a permutation of them |
| Settings.SortedByIdAllPairs | tweaks/Settings/SettingsManager.swift:126 | adjacent-pair order by id implies order between any two models |
| Settings.SelectionAfterFetch | tweaks/Settings/SettingsManager.swift:129-134 | a selection the list holds stays; otherwise the first model, or the old selection when the list is empty |
| Settings.NextFreeId | tweaks/Settings/SettingsManager.swift:20 | the fresh id is above every id in use |
| Settings.SettingsManager.constructor | tweaks/Settings/SettingsManager.swift:95-115 | stored prompts are kept; with none, a single active default prompt is seeded; distinct stored ids stay distinct; the quick slots are four; the selected model is the stored one or the default |
| Settings.SettingsManager.ActivePrompt | tweaks/Settings/SettingsManager.swift:189-191 | the first prompt whose id is the active one, and `None` exactly when there is none |
| Settings.SettingsManager.AddPrompt | tweaks/Settings/SettingsManager.swift:150-154 | one non-default prompt with a fresh id is appended, so distinct ids stay distinct; nothing else changes |
| Settings.SettingsManager.UpdatePrompt | tweaks/Settings/SettingsManager.swift:156-162 | the first prompt with the id gets the new name and content; an unknown id changes nothing; ids stay distinct; nothing else changes |
| Settings.SettingsManager.DeletePrompt | tweaks/Settings/SettingsManager.swift:164-182 | an unknown id or a default prompt changes nothing; otherwise every prompt with the id goes and a deleted active id moves on; when ids are distinct they stay so and every default prompt survives; nothing else changes |
| Settings.SettingsManager.SetActivePrompt | tweaks/Settings/SettingsManager.swift:184-187 | the id becomes active without being checked; nothing else changes |
| Settings.SettingsManager.SelectModel | tweaks/Settings/SettingsManager.swift:143-146 | the selection is replaced; nothing else changes |
| Settings.SettingsManager.UpdateQuickSlot | tweaks/Settings/SettingsManager.swift:249-264 | the first slot with the number is updated field by field; an unknown number changes nothing; the slots stay four; nothing else changes |
| Settings.SettingsManager.FetchAvailableModels | tweaks/Settings/SettingsManager.swift:119-141 | on success the list is stored sorted and the selection is revalidated; on failure the list and selection stay and the error is recorded; the loading flag ends false |
| LegacySettings.LegacyModelsRequest | tweaks/SettingsManager.swift:92-98 | a GET to the appended `/v1/models` carrying `Authorization` exactly when a key is set, and no other header |
| LegacySettings.LegacyModelsUrlAgrees | tweaks/SettingsManager.swift:93 | for a path-less base the URL equals the current client's; only `Content-Type` differs |
| LegacySettings.LegacyListModels | tweaks/SettingsManager.swift:100-109 | a non-HTTP response is `httpError(0)`, a non-2xx status is `httpError(status)`, otherwise the decoded `data` |
| LegacySettings.LegacyListModelsAgrees | tweaks/SettingsManager.swift:102-106 | the legacy reading agrees with the current one except on a non-HTTP response |
| LegacySettings.LegacySettingsManager.constructor | tweaks/SettingsManager.swift:69-83 | stored prompts are kept; with none, one active default prompt with the legacy system prompt is seeded; distinct stored ids stay distinct |
| LegacySettings.LegacySettingsManager.ActivePrompt | tweaks/SettingsManager.swift:172-174 | the first prompt whose id is the active one |
| LegacySettings.LegacySettingsManager.AddPrompt | tweaks/SettingsManager.swift:133-137 | one non-default prompt with a fresh id is appended, so distinct ids stay distinct; nothing else changes |
| LegacySettings.LegacySettingsManager.UpdatePrompt | tweaks/SettingsManager.swift:139-145 | the first prompt with the id is renamed and rewritten; an unknown id changes nothing; ids stay distinct; nothing else changes |
| LegacySettings.LegacySettingsManager.DeletePrompt | tweaks/SettingsManager.swift:147-165 | as in the current store: defaults and unknown ids change nothing, otherwise every prompt with the id goes and a deleted active id moves on; when ids are distinct they stay so and every default prompt survives; nothing else changes |
| LegacySettings.LegacySettingsManager.SetActivePrompt | tweaks/SettingsManager.swift:167-170 | the id becomes active; nothing else changes |
| LegacySettings.LegacySettingsManager.SelectModel | tweaks/SettingsManager.swift:126-129 | the selection is replaced; nothing else changes |
| LegacySettings.LegacySettingsManager.FetchAvailableModels | tweaks/SettingsManager.swift:87-124 | the hand-built request is sent; success stores the sorted list and revalidates the selection; failure records the legacy error |
| HotkeyFeedback.HotkeyFeedbackManager.constructor | tweaks/UI/HotkeyFeedback.swift:16-23 | nothing is showing or loading, and the counters are zero |
| HotkeyFeedback.HotkeyFeedbackManager.HotkeyTriggered | tweaks/UI/HotkeyFeedback.swift:25-49 | the press is counted, the overlay shows and a hide is scheduled; the loading state is untouched |
| HotkeyFeedback.HotkeyFeedbackManager.BeginLoading | tweaks/UI/HotkeyFeedback.swift:51-60 | one more tweak in flight; loading, showing, no hide pending |
| HotkeyFeedback.HotkeyFeedbackManager.EndLoading | tweaks/UI/HotkeyFeedback.swift:62-75 | nothing at count zero; otherwise one fewer, and at zero loading ends and a hide is scheduled; loading always mirrors a positive count |
| HotkeyFeedback.HotkeyFeedbackManager.HandleHideTimer | tweaks/UI/HotkeyFeedback.swift:141-144 | the overlay hides; the loading state is untouched |
| HotkeyFeedback.RunCalls | tweaks/UI/HotkeyFeedback.swift:51-75 | any sequence of begins and ends leaves the count at `CountAfter`, never negative, with loading exactly when it is positive |
| HotkeyFeedback.CountAfter | tweaks/UI/HotkeyFeedback.swift:51-75 | the reference count after a sequence of calls, with an end at zero ignored (its properties are `RunCalls`, `BeginsAdd`, `EndsSubtract`, `BalancedCallsRestoreCount`) |
| HotkeyFeedback.BalancedCallsRestoreCount | tweaks/UI/HotkeyFeedback.swift:51-75 | `n` begins followed by `n` ends restore the count |
| HotkeyFeedback.BeginsAdd | tweaks/UI/HotkeyFeedback.swift:51-60 | `n` leading begins raise the count by `n` |
| HotkeyFeedback.EndsSubtract | tweaks/UI/HotkeyFeedback.swift:62-75 | `n` ends lower a count of at least `n` by exactly `n` |
| PermissionManager.PresentationDistinguishesStatus | tweaks/PermissionManager.swift:20-45 | distinct statuses have distinct icons, colours and messages |
| PermissionManager.Icon | tweaks/PermissionManager.swift:20-27 | the SF Symbol name per status (distinctness is `PresentationDistinguishesStatus`) |
| PermissionManager.ColorOf | tweaks/PermissionManager.swift:29-36 | the colour per status |
| PermissionManager.Message | tweaks/PermissionManager.swift:38-45 | the message per status |
| PermissionManager.StatusFor | tweaks/PermissionManager.swift:63-75 | granted exactly when trusted; denied exactly when untrusted after a request; not requested otherwise; never unknown |
| PermissionManager.PermissionManager.constructor | tweaks/PermissionManager.swift:58-61 | the status is checked once and normal monitoring starts |
| PermissionManager.PermissionManager.CheckStatus | tweaks/PermissionManager.swift:63-75 | the status follows trust and the stored request flag; nothing else changes |
| PermissionManager.PermissionManager.RequestPermission | tweaks/PermissionManager.swift:77-87 | the request is remembered, one system prompt is asked for, and monitoring turns intensive |
| PermissionManager.PermissionManager.OpenSystemPreferences | tweaks/PermissionManager.swift:89-96 | the Privacy › Accessibility URL is opened and monitoring turns intensive |
| PermissionManager.PermissionManager.HandleNormalTimer | tweaks/PermissionManager.swift:98-103 | the status is re-checked at the normal rate |
| PermissionManager.PermissionManager.HandleIntensiveTimer | tweaks/PermissionManager.swift:105-125 | the status is re-checked, and monitoring drops back to normal once trusted |
| PermissionManager.RequestThenCheck | tweaks/PermissionManager.swift:63-87 | after a request an untrusted check reports denied, never not-requested, and monitoring stays intensive |
| ShortcutUtils.LetterOf | tweaks/Hotkey/ShortcutUtils.swift:23-33 | the letter table yields only A–Z |
| ShortcutUtils.DigitOf | tweaks/Hotkey/ShortcutUtils.swift:35-40 | the digit table yields only 0–9 |
| ShortcutUtils.KeyCodeToString | tweaks/Hotkey/ShortcutUtils.swift:22-54 | a letter, else a digit, else Space/Return/Esc/Tab/Delete, else `Key` and the decimal code; never empty |
| ShortcutUtils.LetterCode | tweaks/Hotkey/ShortcutUtils.swift:23-33 | every letter A–Z has exactly one key in the table |
| ShortcutUtils.DigitCode | tweaks/Hotkey/ShortcutUtils.swift:35-40 | every digit has exactly one key in the table |
| ShortcutUtils.TablesInverse | tweaks/Hotkey/ShortcutUtils.swift:23-40 | each table entry is read back by its inverse |
| ShortcutUtils.TablesDisjoint | tweaks/Hotkey/ShortcutUtils.swift:42-53 | no key code is in two tables, so the lookup order never matters |
| ShortcutUtils.KeyNameRoundTrip | tweaks/Hotkey/ShortcutUtils.swift:22-54 | the displayed key name identifies the key code |
| ShortcutUtils.KeyNamesDistinct | tweaks/Hotkey/ShortcutUtils.swift:22-54 | distinct key codes are displayed differently |
| ShortcutUtils.ModifierSymbols | tweaks/Hotkey/ShortcutUtils.swift:13-16 | each of ⌘ ⇧ ⌥ ⌃ appears exactly when its bit is set, in that order, at most four symbols |
| ShortcutUtils.ModifierSymbolsOfUnusedBits | tweaks/Hotkey/ShortcutUtils.swift:13-16 | no modifier gives no symbol, and bits other than the four are not shown |
| ShortcutUtils.ShortcutDisplayString | tweaks/Hotkey/ShortcutUtils.swift:11-20 | the modifier symbols followed by the key name |
| ShortcutUtils.JoinedSymbols | tweaks/Hotkey/ShortcutUtils.swift:17-19 | joining the appended parts gives the symbols followed by the key name |
| ShortcutUtils.Joined | tweaks/Hotkey/ShortcutUtils.swift:19 | `joined()` with no separator (its properties are the `Joined…` lemmas) |
| ShortcutUtils.JoinedSingletons | tweaks/Hotkey/ShortcutUtils.swift:13-16 | the one-symbol parts join to the symbol string |
| ShortcutUtils.JoinedAtMostOne | tweaks/Hotkey/ShortcutUtils.swift:19 | joining no parts gives the empty text and joining one part gives that part |
| ShortcutUtils.JoinedAppend | tweaks/Hotkey/ShortcutUtils.swift:19 | joining concatenated parts concatenates the joins |
| ShortcutRecorder.ModifierMask | tweaks/ShortcutRecorder.swift:50-57 | each Carbon bit is set exactly when its flag is present, and no other bit is |
| ShortcutRecorder.ConvertModifiers | tweaks/ShortcutRecorder.swift:50-57 | OR-ing the flags' bits into 0 gives the mask; no flag gives 0 |
| ShortcutRecorder.ModifierMaskInjective | tweaks/ShortcutRecorder.swift:50-57 | equal masks mean the same four modifier flags |
| ShortcutRecorder.RecordedSymbols | tweaks/ShortcutRecorder.swift:50-57 | a recorded combination shows a symbol exactly for each modifier held |
| ShortcutRecorder.RecordingNSView.constructor | tweaks/ShortcutRecorder.swift:30-32 | a new view is not recording and has reported nothing |
| ShortcutRecorder.RecordingNSView.SetRecording | tweaks/ShortcutRecorder.swift:36-41 | the recording flag is set; nothing is reported |
| ShortcutRecorder.RecordingNSView.KeyDown | tweaks/ShortcutRecorder.swift:43-48 | ignored unless recording; otherwise exactly one report of the key code and the mask |
| ShortcutRecorder.RecordKeyPress | tweaks/ShortcutRecorder.swift:16-23 | a press while recording is reported once and recording stops; otherwise nothing is reported |
| ContentView.ShortcutState.constructor | tweaks/ContentView.swift:19-20 | the initial shortcut is T with the control key |
| ContentView.ShortcutState.LoadSavedShortcut | tweaks/ContentView.swift:24-32 | each half is replaced only when a value is stored for it |
| ContentView.OnAppear | tweaks/ContentView.swift:19-32 | the window shows exactly the launch shortcut `AppDelegate.LaunchShortcut(store)`: each of key code and modifiers as stored, and T or the control key for a key not stored |
| AppDelegate.LaunchShortcut | tweaks/AppDelegate.swift:42-51 | each half is the saved value when stored, else T and control |
| AppDelegate.SavedShortcutIsRelaunched | tweaks/AppDelegate.swift:42-51 | a saved shortcut is the one the next launch registers; an empty store gives the default |
| AppDelegate.DefaultShortcutIsControlT | tweaks/AppDelegate.swift:42-51 | the default shortcut is displayed as ⌃T (through the helper lemmas `ControlKeySymbol` and `KeyTName`) |
| AppDelegate.HotkeySignatureSpellsTwks | tweaks/AppDelegate.swift:118 | the signature constant is the four-character code `TWKS` |
| AppDelegate.AppDelegate.constructor | tweaks/AppDelegate.swift:18-19 | the store is the saved defaults, with no hotkey registered |
| AppDelegate.AppDelegate.RegisterGlobalHotkey | tweaks/AppDelegate.swift:111-127 | the previous registration is dropped; the new one holds exactly when Carbon accepts it |
| AppDelegate.AppDelegate.ApplicationDidFinishLaunching | tweaks/AppDelegate.swift:42-51 | the launch shortcut is registered when accepted |
| AppDelegate.AppDelegate.UpdateGlobalHotkey | tweaks/AppDelegate.swift:130-135 | both halves are saved before registering, so the next launch uses the new shortcut even when Carbon refuses it |
| AppDelegate.Persisted | tweaks/AppDelegate.swift:130-133 | the store with both halves of the shortcut written (that the next launch reads them back is `SavedShortcutIsRelaunched`) |
| AppDelegate.AppDelegate.SuspendGlobalHotkey | tweaks/AppDelegate.swift:320-325 | no hotkey stays registered |
| AppDelegate.AppDelegate.PasteTweakedText | tweaks/AppDelegate.swift:137-284 | nothing happens without trust, a running server and clipboard text; otherwise the log is `StreamPasteLog`: the streamed reply is pasted, a stream without text falls back to the non-streamed reply or the original, and the clipboard ends holding the original text |
| TweakService.ConcatAppend | tweaks/Services/TweakService.swift:129-137 | joining one more text appends it |
| TweakService.Concat | tweaks/Services/TweakService.swift:129-137 | the received texts joined in arrival order, the reference the pastes are measured against |
| TweakService.CoalescedConserves | tweaks/Services/TweakService.swift:117-141 | the pasted segments followed by the held-back buffer are exactly the received text |
| TweakService.Coalesced | tweaks/Services/TweakService.swift:129-137 | the reference definition of the consumer loop's state after the chunks, by `Step` (its properties are `CoalescedConserves` and `CoalescedShape`) |
| TweakService.Step | tweaks/Services/TweakService.swift:130-136 | one chunk: an empty one is skipped; otherwise it is appended and the buffer is pasted and emptied once it holds 24 characters or a newline |
| TweakService.CoalescedShape | tweaks/Services/TweakService.swift:117-137 | each pasted segment is non-empty and was long enough or held a newline; the buffer is not; something arrived exactly when some chunk was non-empty |
| TweakService.FinalSegmentsShape | tweaks/Services/TweakService.swift:129-141 | at the normal end everything received is pasted, no piece is empty, every piece but the last was ready, and nothing is pasted exactly when nothing arrived |
| TweakService.FinalSegments | tweaks/Services/TweakService.swift:129-141 | the flushed segments, then the remaining buffer when it is not empty (its property is `FinalSegmentsShape`) |
| TweakService.ConcatHasPart | tweaks/Services/TweakService.swift:129-137 | a non-empty part makes the joined text non-empty |
| TweakService.ConcatOfEmpties | tweaks/Services/TweakService.swift:129-137 | only empty parts join to the empty text |
| TweakService.LongChunkFlushes | tweaks/Services/TweakService.swift:117-127 | a chunk of 24 characters or more is pasted at once together with what was held back |
| TweakService.CoalescingExample | tweaks/Services/TweakService.swift:117-141 | "Hi", "", " there\n", "ok" paste as "Hi there\n" then "ok" |
| TweakService.Coalesce | tweaks/Services/TweakService.swift:129-137 | the loop's state is `Coalesced` of the chunks, so no text is lost or reordered |
| TweakService.Pastes | tweaks/Services/TweakService.swift:117-127 | one paste effect per text, in order |
| TweakService.PastedTextsAppend | tweaks/Services/TweakService.swift:117-141 | the pasted texts of two logs are concatenated |
| TweakService.PastedTextsOfPastes | tweaks/Services/TweakService.swift:117-127 | a log of pastes pastes exactly those texts |
| TweakService.PasteLog | tweaks/Services/TweakService.swift:139-159 | a request, pastes and a final clipboard write paste those texts and leave the clipboard as last written |
| TweakService.StreamPasteLog | tweaks/Services/TweakService.swift:109-169 | the whole log of a flow against a client, case by case: failure, received text, fallback success, fallback failure |
| TweakService.StreamPaste | tweaks/Services/TweakService.swift:109-169 | the log is `StreamPasteLog`: the stream request first; a failed stream pastes the partial text, then the original; a stream with text pastes all of it in order; a stream without text sends the non-streamed request and pastes its reply or, when it fails, the original; the clipboard ends holding the original |
| TweakService.FinalClipboardAppend | tweaks/Services/TweakService.swift:156-159 | a later clipboard write decides the clipboard |
| TweakService.PerformPasteFlow | tweaks/Services/TweakService.swift:100-171 | the loading count is back where it was, with a hide scheduled exactly when it is zero; with no client the original is pasted alone; otherwise the log is `StreamPasteLog` for the client found, fallback included; the clipboard ends holding the original |
| TweakService.PasteTweakedText | tweaks/Services/TweakService.swift:17-47 | nothing happens exactly when trust, a running server or clipboard text is missing; otherwise the active prompt (or the default) drives the flow, whose log is `StreamPasteLog` with its fallback, and the clipboard ends as it was; the feedback manager is untouched when nothing happens, and otherwise ends showing with the loading count restored and a hide scheduled exactly when no other load was running |
| TweakService.SourceText | tweaks/Services/TweakService.swift:64-83 | the copied selection when it is non-empty, else a non-empty previous clipboard, else nothing |
| TweakService.PasteTweakedTextUsing | tweaks/Services/TweakService.swift:50-98 | after the trust and server checks the selection is copied first; without text nothing more happens; otherwise the slot's prompt drives the flow, whose log is `StreamPasteLog`; the feedback manager is untouched when no flow runs, and otherwise ends as after `PerformPasteFlow` |
| QuickTweakMenu.ActionsOf | tweaks/UI/QuickTweakMenu.swift:159-173 | one action per slot, carrying that slot's number, texts and prompt |
| QuickTweakMenu.ActionOf | tweaks/UI/QuickTweakMenu.swift:165-172 | one slot's action: its number, title, subtitle and prompt |
| QuickTweakMenu.ActionsOfAppend | tweaks/UI/QuickTweakMenu.swift:165-172 | the actions of joined slot lists are the joined actions |
| QuickTweakMenu.DefaultActionsMatchDefaultSlots | tweaks/UI/QuickTweakMenu.swift:125-156 | the built-in actions are the default slots' actions, numbered 1 to 4 |
| QuickTweakMenu.Enabled | tweaks/UI/QuickTweakMenu.swift:160 | exactly the enabled slots are kept |
| QuickTweakMenu.ActionsFromSettings | tweaks/UI/QuickTweakMenu.swift:159-173 | never empty; the built-ins when no slot is enabled; otherwise the enabled slots' actions, each as often as its slot occurs, in ascending number order (through the helper lemmas `ActionsOfMembers`, `ActionsOfSorted` and `ActionsOfPermutation`) |
| QuickTweakMenu.ActionsOfPermutation | tweaks/UI/QuickTweakMenu.swift:165 | rearranging the slots rearranges their actions the same way |
| QuickTweakMenu.AllEnabledSortedSlotsShowAsStored | tweaks/UI/QuickTweakMenu.swift:159-173 | enabled slots already in number order are shown as stored |
| QuickTweakMenu.AllEnabledKept | tweaks/UI/QuickTweakMenu.swift:160 | when every slot is enabled the filter keeps them all |
| QuickTweakMenu.DefaultSlotsShowDefaultActions | tweaks/UI/QuickTweakMenu.swift:159-173 | the default slots show the built-in actions |
| QuickTweakMenu.ActionFor | tweaks/UI/QuickTweakMenu.swift:356 | the first action with the number, and `None` exactly when none has it |
| QuickTweakMenu.DigitForKeyCode | tweaks/UI/QuickTweakMenu.swift:296-308 | keys 18–21 and 83–86 map to 1–4; every other key maps to nothing |
| QuickTweakMenu.DigitKeysAgree | tweaks/UI/QuickTweakMenu.swift:296-308 | an ANSI digit key's number is the digit its name shows; the map is exact in both directions |
| QuickTweakMenu.TapDecision | tweaks/UI/QuickTweakMenu.swift:290-320 | an event is swallowed exactly when it is a key-down carrying the presenter and mapping to a digit |
| QuickTweakMenu.HudKeyResponse | tweaks/UI/QuickTweakMenu.swift:255-268 | a first character 1–4 highlights that number and chooses its first action when there is one; Esc dismisses; anything else is ignored |
| QuickTweakMenu.QuickTweakMenuPresenter.constructor | tweaks/UI/QuickTweakMenu.swift:27-35 | no HUD, no tap, the built-in actions |
| QuickTweakMenu.QuickTweakMenuPresenter.Close | tweaks/UI/QuickTweakMenu.swift:108-122 | the window, the tap and the remembered app are gone; focus is handed back exactly when the HUD took it |
| QuickTweakMenu.QuickTweakMenuPresenter.ShowCenteredHUD | tweaks/UI/QuickTweakMenu.swift:39-106 | earlier HUDs are closed; the actions come from the slots; digits are captured by the tap when it can be created, else by activating the app |
| QuickTweakMenu.QuickTweakMenuPresenter.PerformAction | tweaks/UI/QuickTweakMenu.swift:355-359 | an unknown number changes nothing; otherwise the action's prompt is handed to the paste flow and the HUD closes as `Close` does, handing focus back when it was taken |
| QuickTweakMenu.QuickTweakMenuPresenter.HandleTapEvent | tweaks/UI/QuickTweakMenu.swift:290-320 | a digit key-down is swallowed; its action, when there is one, is performed and the HUD closes, and otherwise nothing changes; every other event passes through and changes nothing |
| QuickTweakMenu.QuickTweakMenuPresenter.HandleHudKey | tweaks/UI/QuickTweakMenu.swift:255-268 | a chosen action is performed and the HUD closes; Esc closes the HUD; a highlight or any other key changes nothing |
| QuickTweakMenu.ChosenIsFound | tweaks/UI/QuickTweakMenu.swift:255-268 | the action the key view chooses is the one `performAction` then finds |
| Strings.Trim | tweaks/AI/Osaurus.swift:398-399 | the result is a part of the text that neither starts nor ends with a trimmed character |
| Strings.TrimIsInfix | tweaks/AI/Osaurus.swift:398-399 | trimming removes only runs of trimmed characters at the two ends |
| Strings.TrimIdempotent | tweaks/Settings/SettingsManager.swift:203 | trimming twice is trimming once |
| Strings.ReplaceAllAbsent | tweaks/AI/Osaurus.swift:97-104 | replacing a pattern that does not occur changes nothing |
| Strings.ReplaceCharRemovesIt | tweaks/AI/Osaurus.swift:99 | replacing every `-` by a text without `-` leaves none |
| Strings.NatToDecimal | tweaks/Hotkey/ShortcutUtils.swift:52 | the numeral is non-empty and made of digits |
| Strings.DecimalRoundTrip | tweaks/Hotkey/ShortcutUtils.swift:52 | reading the numeral back gives the number |
| Strings.LessTransitive | tweaks/Settings/SettingsManager.swift:126 | the string order used for sorting is transitive |
| Strings.LessTotal | tweaks/Settings/SettingsManager.swift:126 | any two distinct strings are ordered one way or the other |

## Left out

- Networking, `URLSession`, async tasks and `DispatchQueue`. Replies are inputs, and `await` ordering is collapsed into sequential steps.
- `temperature` and every `Double` (`updateTemperature` and the temperature key). They only pass through to the request body and have no logic of their own.
- `UserDefaults` for the hotkey. The `HotkeyKeyCode` and `HotkeyModifiers` keys are a `map` from key to value (`AppDelegate.Persisted`), which `UpdateGlobalHotkey` writes and the launch reads back. The accessibility-request flag of `PermissionManager` is a field standing for its stored value. Decoding failures of stored JSON are modelled as `None` inputs. The `UInt32(...)` conversion traps are ruled out by the `UInt32` type of the stored values.
- `Settings.SettingsManager` and `LegacySettings.LegacySettingsManager`: their `UserDefaults` writes are not modelled. Stored state is an input record (`SavedSettings`, `LegacySavedSettings`) read once by the constructor, and nothing is written back. The dropped writes are `savePrompts` (tweaks/Settings/SettingsManager.swift:308-316); `saveQuickSlots`, including its filter to slots 1–4 and its sort by number before saving (:318-327); the selected-model and active-prompt writes (:132, :145, :186); and the legacy store's writes (tweaks/SettingsManager.swift:115, :128, :169, :209-217). A relaunch after these operations is therefore not modelled.
- `Osaurus.Candidate`: a port is a natural number, so a descriptor with a negative `port` is outside the model. The source decodes it as an `Int` and lets it through the eligibility guard; with a parseable `url` it becomes a candidate, and otherwise `comps.url!` would trap.
- `UUID`s. Prompt ids are natural numbers drawn from a counter above every id in use. Distinct ids are not an invariant, because a stored list is loaded as is; the prompt operations keep ids distinct when they were, and only then promise that default prompts survive deletion. `localizedDescription` error text is not modelled: the error value is kept instead.
- `LegacyOsaurus.AppendingPathComponent`: only one-slash joining is modelled. Percent-encoding and the handling of a trailing slash on the component are not modelled.
- `Settings.SortModels` and `Settings.SortByNumber`: the contracts state sortedness and a permutation, and do not state the order of equal keys. Swift's `sorted(by:)` and the model's insertion sorts are both stable, but stability is not proved; with repeated slot numbers, which sanitization admits, it decides which slot `ActionFor` and `FirstSlotIndex` find first.
- `CharacterSet.whitespaces` and `whitespacesAndNewlines` are modelled by their ASCII members. String length is the number of `char`s, not grapheme clusters.
- `Strings.Less` compares strings `char` by `char`. Swift's `<` on `String`, which the model list's sort uses, compares in Unicode canonical order; the two agree on ASCII ids but not on every string.
- `bytes.lines`: the line splitting itself is not modelled. The stream is an input sequence of lines.
- Timers and delays: the hide timer, the permission monitors, the HUD's 2.5 s auto-dismiss and the 0.05 s select delay. They appear as explicit handler methods or are dropped.
- Windows, geometry, animation, the hover highlight and all SwiftUI/AppKit views.
- `CGEvent` key synthesis and `NSPasteboard`. They are recorded as `Paste`, `SetClipboard` and `CopySelection` effects.
- The Carbon hotkey event handler and `installHotkeyHandler`. Carbon's acceptance of a registration is an input.
- `HotkeyManager` and the `App/` copy of the app delegate. These files are not part of this model.
- `HotkeyFeedback.HotkeyFeedbackManager.HotkeyTriggered`: the deferred `showingFeedback` update on the main queue is collapsed into the call.
- `TweakService.StreamPaste`: when a stream fails midway, the model pastes the original text after the partial text and drops the unflushed buffer, as the source does. The order of the pastes relative to other apps' input is not modelled. Each `Paste` is one atomic step, but in the source it is two: a clipboard write on the main queue, then a ⌘V posted `prePasteDelay` (0.02 s) later (tweaks/Services/TweakService.swift:117-127, 144-151, 160-168; tweaks/AppDelegate.swift:201-211, 243-253, 269-276). The clipboard restore is a separate 0.70 s delayed write (tweaks/Services/TweakService.swift:156-159; tweaks/AppDelegate.swift:257-260). When two flushes come less than 0.02 s apart, the first ⌘V can paste the second text, so one piece is pasted twice and the other never. This can happen with a chunk ending in `"\n"` right after a full buffer, or with the leftover flush right after the last in-loop flush. The conservation property `Concat(PastedTexts(effects)) == Concat(deltas)` is therefore about the pastes the flow requests, not about the text that reaches the target application; the same holds for `TweakService.PerformPasteFlow` and `AppDelegate.AppDelegate.PasteTweakedText`.
- `TweakService.PerformPasteFlow`: `Osaurus.make()` failing pastes the original text alone, and that path is modelled. Its callers cannot reach it, because the running-server guard reads the same listing; the model does not capture a server that stops between the guard and `make()`.
- `tweaks/UI/ContentView.swift`, a smaller settings view with a different default, is not part of this model.
