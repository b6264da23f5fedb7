# n8n assistant: chat normaliser, pending-injection state machine and helpers

A Dafny model of the pure logic inside the n8n assistant browser extension.

**The service worker (`background.js`)** does three things:

- It assembles the chat request. That means the system prompt, then the history turns, then the user turn with a context part cut to 8000 characters.
- It resolves the configured model against the `MODEL_MAP` allow-list. It then turns the message list into one of two wire shapes: chat completions, or responses. The responses shape uses `toResponsesInput` and lifts the system text into `instructions`.
- It reads the answer. `safeExtractJson` rescues a `{…}` span from the answer, and the parsed reply is classified into `create_workflow`, `qa`, `help` or `unknown`, or into an error code. The service worker also keeps the list of user-activated origins.

**The content script (`contentScript.js`)** delivers a generated workflow onto the n8n canvas:

- When a canvas is found, it pastes the workflow at once, or drops it.
- Otherwise it stores a per-host pending record and navigates through editor route candidates. It resumes delivery after each navigation.

The content script also supplies these helpers:

- the allowed-site matcher;
- the per-host storage keys;
- the eight-message history window;
- the escape and list passes of the Markdown renderer.

**The options page (`options.js`)** loads, saves and resets the settings, including the textarea of allowed-site patterns.

The network, `chrome.storage`, the permission prompt, the DOM, `JSON.parse` and the canvas wait are oracles. Each one is a parameter of the function that uses it:

- the upstream HTTP reply is `upstream: Request -> HttpReply`;
- parsing is `parse: string -> Option<Parsed>`;
- the permission answer is `permitted: bool`;
- the DOM is the `Page` record (which selectors resolve, whether a `DataTransfer` can be built, which targets accept a paste);
- the canvas wait is `canvasReady: bool`;
- `new URL(...)` is an `Option<Url>` or an `Option<string>` host, with `None` when it throws.

Storage is a `map<string, Pending>`. `JSON.stringify` of a workflow or a context is taken as already-serialised text.

Modules, one per file:

- `Wrappers` — `Option`, `Result`.
- `Strings` — JavaScript `trim`, `split`, `join`, `includes`, `indexOf`, `lastIndexOf`, and ASCII case folding.
- `Workflows` — the workflow document.
- `Chat` — `background.js` chat path.
- `Origins` — the origin handlers.
- `SiteMatch` — `matchesAllowedSite`.
- `Session` — storage keys and `buildHistory`.
- `Routes` — `buildRouteCandidates`.
- `Injection` — the canvas probe, the two delivery strategies and the pending-record state machine.
- `Markdown` — the escape and list passes.
- `Options` — the options page.

## Model

| member | source | states |
|---|---|---|
| Chat.ConvertMessage | background.js:277-308 | A missing role becomes `user`. Parts are kept one for one: `text` and unknown parts become `output_text` for the assistant and `input_text` otherwise, and `image_url` becomes `input_image` whatever the role. An empty assistant, user or system message gets one empty placeholder part. |
| Chat.ToResponsesInput | background.js:273-310 | One output message per input message, with the same count and order, each converted by `ConvertMessage`. |
| Chat.ConvertMessageRoundTrip | background.js:285-300 | Reading a converted message back gives the original, for messages with an explicit role and a non-empty list of text and image parts. |
| Chat.ResponsesRoundTrip | background.js:277-309 | The responses conversion keeps every text, image reference, role and the order of a list of such messages. |
| Chat.SafeExtractJsonSpec | background.js:215-225 | A text with no `{` before a later `}` comes back unchanged. Otherwise the result starts with `{`, ends with `}`, and is an infix with no `{` before it and no `}` after it: the widest brace-framed span. |
| Chat.SafeExtractJsonIdempotent | background.js:215-225 | Rescuing twice gives the same as rescuing once. |
| Chat.FirstSystemIndex | background.js:233 | Finds the first message whose role is `system`, or none when no message has it. |
| Chat.TextsOf | background.js:236 | Keeps the texts of the `text` parts. An all-text list gives every text, and a list with no text parts gives nothing. A single part gives its text when it is a `text` part and nothing otherwise. |
| Chat.TextsOfAppend | background.js:236 | The text filter distributes over concatenation. With the single-part cases this fixes the result of every list: the texts of the `text` parts, in their order. |
| Chat.SystemInstructions | background.js:231-238 | `instructions` is empty without a system message, and is the content itself when the first system message holds a plain string. |
| Chat.WithoutSystem | background.js:239 | Keeps exactly the non-system messages. A list without system messages is unchanged, and a lone system message is dropped. |
| Chat.WithoutSystemAppend | background.js:239 | The system filter distributes over concatenation, so the kept messages stay in their original order. |
| Chat.ResponsesRequestBody | background.js:239-242 | The body has no `instructions` exactly when the instructions are empty. Its input is the converted non-system messages, so no input message has role `system`. |
| Chat.BuildRequest | background.js:227-262 | The trailing slash is stripped from the base. `/chat/completions` carries model, temperature and messages unchanged. `/responses` carries exactly the responses body of the same model and messages. The request always carries the key and the model. |
| Chat.ReplyAnswer | background.js:253-268 | The chat shape reads `choices[0].message.content`. The responses shape reads `output_text` when it is non-empty and `response.output_text` otherwise, and is empty only when both are. |
| Chat.CallOpenAI | background.js:227-271 | Exactly one request is built. The call succeeds exactly when the status is 2xx and the answer field is non-empty, and the result is that answer. A non-2xx status yields an HTTP failure with the status and the error text. |
| Chat.ResolveModel | background.js:184-186 | The model sent is always on the allow-list: the configured one when it is listed, `gpt-4o` otherwise. |
| Chat.AllModelsUseChatShape | background.js:5-11 | Every allow-listed model uses the chat-completions shape. |
| Chat.ResolveModelAsWritten | background.js:184-186 | As written, an inherited `Object.prototype` name passes the truthiness test and is kept with no configuration. Any other name resolves as `ResolveModel` does. |
| Chat.PrototypeModelNameSkipsFallback | background.js:184-186 | Shows the `constructor` discrepancy listed under Findings. |
| Chat.HistoryRole | background.js:166 | `user` exactly for role `user`, and `assistant` for `bot` and every other role. |
| Chat.HistoryMessages | background.js:164-171 | Entries with empty or non-string text are skipped. Each kept entry becomes one single-text-part user or assistant message, in order. All entries kept gives one message each, and none kept gives no messages. |
| Chat.HistoryMessagesAppend | background.js:165-170 | History conversion distributes over concatenation, so the order of turns is kept. |
| Chat.ContextSnippet | background.js:179 | The context part is a prefix of the serialised context of length at most 8000. |
| Chat.UserParts | background.js:173-181 | The user turn has one part each for a text, an image and a context. The text part comes first and the labelled context snippet comes last. |
| Chat.BuildMessages | background.js:160-182 | The system prompt comes first, then exactly the converted history, then the user turn last. No message after the first is a system message. |
| Chat.Classify | background.js:204-212 | `create_workflow` with a workflow passes it through. `qa` and `help` keep their intent, with `answer` or the assessment fallback. Everything else, including `create_workflow` without a workflow, is `unknown` with `answer` or the unknown fallback. A `null` reply is an API error. |
| Chat.CreateWithoutWorkflowIsUnknown | background.js:204-212 | A `create_workflow` reply without a workflow is downgraded to `unknown`. |
| Chat.HandleChat | background.js:151-228 | With no API key the result is `missingApiKey` and no request is sent. A model named after an `Object.prototype` member reaches `callOpenAI` without `apiBase`, so the call throws and no request is sent. Otherwise exactly one chat-completions request is sent to the OpenAI base, for the resolved model and the assembled messages. A non-2xx reply or an empty answer gives an API error. An answer that fails to parse gives `invalidAiJson`, and a parsed one is classified. A workflow is created exactly when the parsed reply is a `create_workflow` object with a workflow. |
| Chat.HandleChatEndToEnd | background.js:151-228 | For a configured key and an ordinary model name, a 2xx reply whose rescued JSON parses is classified as it stands, answering the one request built from the settings. A model named `constructor` fails with no request. |
| Origins.Register | background.js:57-70 | Succeeds exactly for a trimmed `http(s)://` origin with permission granted. It fails with `invalid origin` or `permission_denied` and leaves the list unchanged. On success the origin is appended only when absent, the old list stays a prefix, and a duplicate-free list stays duplicate-free. |
| Origins.Without | background.js:75 | Removes exactly the entries equal to the origin, and keeps every other entry. |
| Origins.Unregister | background.js:71-82 | After unregistering, the trimmed origin is gone and every other entry remains. |
| Origins.RegisterThenUnregister | background.js:57-82 | Unregistering an origin that registration just added restores the previous list. |
| Origins.RegisterIdempotent | background.js:64 | Registering the same origin twice gives the list of the first registration. |
| Origins.ContentScriptMatches | background.js:32-34 | No origins means no registration. Otherwise there is one match pattern per origin, in order: the origin followed by `/*`, with one final slash dropped from an origin that ends in one. |
| Strings.StripTrailingSlash | background.js:34 | Drops exactly one final `/` when there is one, and changes nothing otherwise. |
| SiteMatch.GlobMatch | contentScript.js:69-71 | Every pattern character other than `*` consumes one character, so a match is at least as long as the pattern without its stars. |
| SiteMatch.StarMatchesLine | contentScript.js:69-71 | A lone `*` reads as `^.*$`: it matches exactly the strings without line terminators. |
| SiteMatch.GlobMatchesFill | contentScript.js:69-71 | Completeness of the `*` reading: every instance of a pattern, with line-terminator-free replacements for the stars, matches it. |
| SiteMatch.GlobWitness | contentScript.js:69-71 | Soundness: a matching string is an instance of the pattern, and the function returns the star replacements, which are free of line terminators. |
| SiteMatch.GlobLiteral | contentScript.js:69-71 | A pattern without `*` matches exactly itself. |
| SiteMatch.AnyPatternMatches | contentScript.js:64-77 | With a parsed host, true exactly when some pattern matches. Without one, the first `*` pattern tried throws, so the result is true exactly when a substring pattern matches before any `*` pattern is reached. |
| SiteMatch.MatchesAllowedSite | contentScript.js:59-78 | An empty list falls back to the case-insensitive `n8n` / `/workflow` / `/editor` / `/#/workflow` test. Otherwise the result is true exactly when some pattern matches. If every pattern has `*` and the URL does not parse, the result is false. |
| Session.StorageKey | contentScript.js:790-797 | Chat and pending keys are `n8n-ai-assistant:<kind>:` followed by the host, or by `global` when the URL does not parse. |
| Session.ForceKey | contentScript.js:84-87 | The force key falls back to `global` both when the URL does not parse and when the host is empty. |
| Session.KeyHost | contentScript.js:790-797 | Reading the host part back out of a key is defined exactly for keys with the kind's prefix. |
| Session.StorageKeyInjective | contentScript.js:819-826 | Two parsed hosts share a record exactly when they are equal. |
| Session.StorageKeyRoundTrip | contentScript.js:790-797 | Reading the host back out of a key gives the host it was built from, or `global`. |
| Session.GlobalFallbackSharesKey | contentScript.js:794-795 | An unparsable page shares its record with a host literally named `global`. |
| Session.KindsNeverCollide | contentScript.js:84-87 | Chat, pending and force keys never coincide, whatever the hosts. |
| Session.BuildHistory | contentScript.js:1036-1040 | Keeps the last `min(n, 8)` messages in order, with their role and their text or `""`. |
| Session.BuildHistorySlides | contentScript.js:1038 | Once the window is full, a new message pushes out the oldest. |
| Session.RequestSizeBounded | contentScript.js:1036-1040 | A chat request built from the panel's history has at most ten messages. |
| Routes.FirstKeyword | contentScript.js:831 | Finds the first position at which `/workflow`, `/workflows` or `/editor` stands before a word boundary, or the end of the path when there is none. |
| Routes.BasePrefix | contentScript.js:831 | The base path is a prefix of the path that contains no keyword segment and stops at the first one. A path with a line terminator gives `""`. |
| Routes.BuildRouteCandidates | contentScript.js:828-844 | A parsed URL gives six candidates, origin + base path + suffix in fixed order. An unparsable one gives the four relative routes. |
| Routes.CandidatesDistinct | contentScript.js:833-842 | No two candidates coincide. |
| Routes.KeywordAtAgrees | contentScript.js:831 | A keyword match before a `/` boundary depends only on the text before it. |
| Routes.BasePrefixStable | contentScript.js:831-839 | On a path-routed candidate (the first, second, fifth and sixth suffix), the base path computed on arrival is the one the candidate was built from. |
| Routes.CandidatesStable | contentScript.js:828-840 | Rebuilding the candidates after arriving at a path-routed candidate gives the same list. |
| Injection.FindCanvasTarget | contentScript.js:1247-1260 | Returns none exactly when no selector resolves. Otherwise it returns the element of a resolving selector with no earlier selector resolving. |
| Injection.ExactCanvasWins | contentScript.js:1248-1249 | An exact `data-test-id="canvas"` element wins over every weaker probe. |
| Injection.TransferOf | contentScript.js:1180-1184 | The clipboard holds the serialised workflow under three MIME types, in order `text/plain`, `text`, `application/json`. |
| Injection.TryPasteImport | contentScript.js:1178-1213 | Answers true exactly when a `DataTransfer` can be built, whatever the dispatches returned. The first paste goes to the canvas, or to the body when there is none. The document and the window get one each exactly when the first is not accepted. |
| Injection.TryDropImport | contentScript.js:1215-1245 | With no canvas it answers false and dispatches nothing. Otherwise dragenter, dragover and drop go to the canvas with the workflow. |
| Injection.InjectWorkflowToCanvas | contentScript.js:1165-1176 | Tries paste first and drop only when paste answered false, and succeeds exactly when one of them did. |
| Injection.InjectionOutcome | contentScript.js:1165-1245 | Injection succeeds exactly when a `DataTransfer` can be built. Every success starts with a paste, and a failure dispatches nothing. |
| Injection.ClampIndex | contentScript.js:849 | A non-numeric or negative index becomes 0, a large one becomes the last index, and an in-range one is kept. An empty list gives -1. |
| Injection.Advance | contentScript.js:846-853 | Navigates to the route at the clamped index and stores the next index `(i + 1) mod n`, which is always in range. An empty list navigates to `undefined`. Nothing else in the record changes. |
| Injection.NavigateToPendingRoute | contentScript.js:846-857 | The advanced record is written under the page's pending key. A record with a non-empty route list stays well-formed, and so does the store invariant. |
| Injection.VisitsCycle | contentScript.js:849-851 | Successive navigations walk the route list cyclically from the stored index. |
| Injection.EveryRouteVisited | contentScript.js:846-857 | As many navigations as there are routes visit every route. |
| Injection.EnsureCanvasAndInject | contentScript.js:868-877 | With a canvas, the store is untouched and the answer is `injected` or `false` according to the injection. Without one, the host's record becomes the candidates with index 1 (0, already advanced once), replacing any older record. The page navigates to the first candidate, the answer is `scheduled`, and the store invariant is kept. |
| Injection.ConsumePendingWorkflow | contentScript.js:879-899 | Without a record, or without a workflow in it, nothing happens. The record is delivered exactly on an editor route with the canvas ready and a successful injection, and only then is it removed. A failed injection there leaves the store unchanged and reports that nothing was delivered. Off an editor route, or before the canvas is ready, the page navigates to the next route. No other key changes, and the store invariant is kept. |
| Injection.RecordRemovedOnlyOnSuccess | contentScript.js:890-894 | A record leaves the store only through a successful delivery. |
| Injection.ScheduleThenResume | contentScript.js:868-899 | Scheduling, then resuming on an editor route of the same host with the canvas ready, delivers the workflow. The store is then as before, minus the host's record. |
| Injection.ResumeElsewhereAdvances | contentScript.js:897 | Resuming off an editor route, or before the canvas is ready, keeps the record, navigates to its route and moves its index one step. |
| Markdown.EscapeHtml | contentScript.js:614-617 | The escaped text contains no `<` or `>`, and text with nothing to escape is unchanged. |
| Markdown.EscapeRoundTrip | contentScript.js:614-617 | Escaping loses nothing: decoding the three entities gives the text back. |
| Markdown.SequentialReplaceIsEscape | contentScript.js:614-617 | The three global replacements, `&` first, equal the character-by-character escape. |
| Markdown.ListPassAsWritten | contentScript.js:645-680 | The list pass as the source runs it. Every line yields exactly one item or plain line, in order: the item text of a list line, the line itself otherwise. Tags carry no text. |
| Markdown.ListPassNests | contentScript.js:645-680 | From a state with at most one list open, the corrected list pass closes exactly the lists it opens, in nesting order. |
| Markdown.ListPassWellNested | contentScript.js:639-680 | The corrected list pass always yields well-nested lists. |
| Markdown.SameKindContinues | contentScript.js:649-663 | A list line while a list of its kind is open adds its item to that list and opens or closes nothing, whatever else is open. |
| Markdown.AsWrittenCrossesTags | contentScript.js:649-680 | For any bullet, ordered, bullet lines such as `- a`, `1. b`, `- c`, the pass as written emits `<ul>`, `<ol>`, three items, `</ul>`, `</ol>`. The tags cross. This shows the list-nesting discrepancy listed under Findings. |
| Markdown.AsWrittenBalanced | contentScript.js:645-680 | Even as written, each kind of list opened is closed exactly once. |
| Markdown.NoRawAngleBrackets | contentScript.js:645-676 | The list pass as written, over lines without angle brackets and from any state, produces items and plain lines without angle brackets. |
| Markdown.ListTokensClean | contentScript.js:613-682 | After escaping, every item and plain line the list pass renders for an answer is free of raw `<` and `>`. |
| Markdown.MarkdownLists | contentScript.js:610-682 | Empty input gives `""`. For any other input, every line of the escaped answer is rendered exactly once, in order, as an item or a plain line. Each kind of list tag is opened as often as it is closed. |
| Options.SplitNewlineRuns | options.js:32 | Splitting on newline runs yields at least one piece, and no piece holds a newline. The pieces joined with single newlines give back the text with every newline run collapsed, so they are the lines in order. |
| Options.ParseAllowedSites | options.js:31-34 | Every saved pattern is non-empty, trimmed and on one line. A one-line text gives its trimmed text, or nothing when it is blank. |
| Options.TrimAndDropEmptyAppend | options.js:33-34 | Trimming and dropping blanks distributes over concatenation, so the kept entries stay in order. |
| Options.ParseAllowedSitesLines | options.js:31-34 | The first line contributes its trimmed text unless it is blank, and the rest of the text is parsed on its own. With the one-line case this fixes the parse of every text. |
| Options.Save | options.js:30-43 | Blank provider, base, model or create method fall back to `openai`, the OpenAI base, `gpt-5` and `ui`. The key is stored trimmed with no default, and the patterns are parsed from the textarea. |
| Options.LoadAsWritten | options.js:18-28 | Each of provider, API base, model and create method shows its stored value, or the default when nothing is stored. The stored patterns are joined one per line. The key field is always empty, because `apiKey` is not among the keys read. |
| Options.Load | options.js:18-28 | Same as `LoadAsWritten`, with the stored key shown. |
| Options.Reset | options.js:48-51 | Removes the key and writes the defaults, so loading after a reset shows the default form. |
| Options.ParseJoinRoundTrip | options.js:27-34 | Saving the joined text of non-empty, trimmed, single-line patterns gives the same list back. |
| Options.SaveLoadSave | options.js:18-43 | With `load` corrected to read `apiKey`, saving, loading and saving again stores what the first save stored. |
| Options.LoadSaveRoundTrip | options.js:18-43 | With `load` corrected to read `apiKey`, loading any store of the shape `save` writes and then saving gives back the same store. The shape is: non-empty trimmed settings, a trimmed key, and clean one-line patterns. |
| Options.SaveLoadAsWrittenSave | options.js:18-43 | With `load` as written, the same round trip stores everything the first save stored except the API key, which becomes empty. |
| Options.SaveAfterLoadAsWrittenErasesKey | options.js:19-39 | Shows the API-key discrepancy listed under Findings. |
| Options.SaveAfterLoadKeepsKey | options.js:24-39 | With the key read, loading and saving keeps a stored key. |

## Left out

- The `AI_CHAT` message listener: it turns an exception into `apiError` (`background.js:112-120`). The model returns that code from `Chat.Classify` for a `null` reply, and from `Chat.HandleChat` for a model without `apiBase`. The exception's message text is not modelled.
- The system prompt text and the translated fallback answers are parameters, not constants.
- Temperature is carried as an opaque number. Its `parseFloat` parsing is floating point.
- Chat.Classify reads a non-string `answer` as `""`, so it gives the fallback. In the source, `parsed.answer || t(...)` (`background.js:209`, `212`) returns a truthy non-string answer such as `42` as it is.
- Reading the answer field takes each of `output_text`, `response.output_text` and `choices[0].message.content` as a string, with `""` when it is absent or falsy.
- Chat.HandleChat: the responses wire shape is never chosen, because every `MODEL_MAP` entry is chat-shaped (`Chat.AllModelsUseChatShape`). The responses branch is modelled and proved separately (`Chat.ResponsesRequestBody`, `Chat.BuildRequest`).
- Chat.SystemInstructions: the contract spells out the no-system and plain-string cases; for a part list the result is the newline join of its text parts, which the definition gives and `Chat.TextsOf` describes.
- Chat.ContextSnippet counts characters. JavaScript's `slice` counts UTF-16 code units, which differ only for characters outside the Basic Multilingual Plane.
- SiteMatch.MatchesAllowedSite requires patterns without `?`. The source leaves `?` unescaped, so it acts as a regular-expression quantifier, which a glob reading does not cover.
- Injection.EnsureCanvasAndInject: the pending record is stored with index 0 and rewritten at once with index 1 by the navigation. The model gives only the final store.
- Injection.NavigateToPendingRoute: the `catch` branch that falls back to `/#/workflow/new` is left out. The model evaluates `routes[-1]` on an empty list to `undefined` instead of throwing, which is JavaScript's behaviour, and stores a NaN index.
- Injection.NavigateToPendingRoute: `storage.setLocal` (`contentScript.js:852`) is not awaited before `location.href` changes. The model takes the write as done before the navigation, although an unload could lose it.
- A fractional stored `idx` is not modelled: `IdxField` holds integers or a non-numeric value.
- `waitForCanvas` polling, `sleep`, the history hooks and the `setTimeout` staggering that trigger resumption are left out. Resumption is a single step, and the canvas wait is the `canvasReady` oracle.
- An exception thrown by `dispatchEvent` itself, and a missing `document.body`, are left out. Only the `DataTransfer` set-up is taken as able to throw.
- Storage values of an unexpected type are left out, except a non-array `routes`, a non-numeric `idx` and a missing or falsy `workflow`. A failing `chrome.storage` call (the script resolving with `{}`) is not modelled.
- `markdownToHTML` is modelled only through its escape and list passes. The code-block, inline-code, bold, italic, heading, link, rule, line-break and paragraph passes are regular-expression rewrites left out. Bold and italic run before the list pass and can consume a list marker such as `* a *b*`.
- Markdown.MarkdownLists renders only the escaped text grouped into lists. It states line preservation and tag balance of its tokens, not the full HTML string.
- Audio recording and transcription, the widget UI, translations, the error observer, node-title collection, `popup.js` and the marketing-site scripts are out of scope. They are media, DOM or static page code.
- `Options`: the temperature field, the `alert` calls and the DOM form fields are left out. The form is a record of field texts.

## Findings

| source | as written | input that shows it | evidently intended | confidence | as-written member | corrected member |
|---|---|---|---|---|---|---|
| contentScript.js:649-663 | A bullet line does not close an open `<ol>`, and an ordered line does not close an open `<ul>`. The end of the text closes `</ul>` before `</ol>`. | The lines `- a`, `1. b`, `- c` give `<ul><li>a</li><ol><li>b</li><li>c</li></ul></ol>`: the tags cross and `c` lands in the numbered list. | A change of list kind closes the other list first, so the tags nest. | not executed | Markdown.AsWrittenCrossesTags | Markdown.ListPassWellNested |
| background.js:184-186 | The fallback to `gpt-4o` is taken only when `MODEL_MAP[name]` is falsy, and inherited members of `Object.prototype` are truthy. | The configured model `constructor` keeps its name and its lookup yields a function, so `mc.apiBase` is undefined and the request cannot be built. | Only the map's own keys count as allow-listed, and everything else falls back to `gpt-4o`. | not executed | Chat.PrototypeModelNameSkipsFallback | Chat.ResolveModel |
| options.js:19-24 | `load` reads only `Object.keys(DEFAULTS)`, which lacks `apiKey`, so the key field is always blank. `save` then stores the blank field. | Stored key `sk-1`: opening the options page and pressing save stores `apiKey: ""`. | `load` shows the stored key, so a load and save round trip keeps it. | not executed | Options.SaveAfterLoadAsWrittenErasesKey | Options.SaveAfterLoadKeepsKey |
