/** The chat request/response normaliser and intent classifier of the
    background service worker: `handleChat`, `callOpenAI`, `toResponsesInput`
    and `safeExtractJson`.  The HTTP call and `JSON.parse` are oracles passed
    in as functions; the rest is total string and list manipulation. */
module Chat {
  import opened Wrappers
  import opened Strings
  import opened Workflows

  const SystemRole := "system"
  const UserRole := "user"
  const AssistantRole := "assistant"

  // ---------------------------------------------------------------------
  // Chat-completions message format
  // ---------------------------------------------------------------------

  /** One content part.  `text` is "" when the source's `p.text` is absent. */
  datatype Part =
    | TextPart(text: string)                 // {type: 'text', text}
    | ImageUrlPart(url: string)              // {type: 'image_url', image_url: {url}}
    | OtherPart(kind: string, text: string)  // any other part type

  /** A message's `content`: a plain string, an array of parts, or null. */
  datatype Content = TextContent(s: string) | PartList(parts: seq<Part>) | NoContent

  /** A role-tagged message; the role "" stands for a missing role. */
  datatype Message = Message(role: string, content: Content)

  // ---------------------------------------------------------------------
  // Responses message format
  // ---------------------------------------------------------------------

  datatype RPart = InputText(text: string) | OutputText(text: string) | InputImage(url: string)

  datatype RMessage = RMessage(role: string, content: seq<RPart>)

  /** `m.role || 'user'` */
  function EffectiveRole(role: string): (r: string)
    ensures r != ""
    ensures role != "" ==> r == role
  {
    if role == "" then UserRole else role
  }

  /** The part list `toResponsesInput` works on: an array as is, a string as
      one text part, null as no parts. */
  function PartsOf(c: Content): seq<Part> {
    match c
    case PartList(ps) => ps
    case TextContent(s) => [TextPart(s)]
    case NoContent => []
  }

  function DirectedText(isAssistant: bool, text: string): RPart {
    if isAssistant then OutputText(text) else InputText(text)
  }

  function RetagPart(isAssistant: bool, p: Part): RPart {
    match p
    case TextPart(t) => DirectedText(isAssistant, t)
    case ImageUrlPart(u) => InputImage(u)
    case OtherPart(_, t) => DirectedText(isAssistant, t)
  }

  /** Converts one message into the responses shape. */
  function ConvertMessage(m: Message): (r: RMessage)
    ensures r.role == EffectiveRole(m.role)
    ensures var ps := PartsOf(m.content);
      && (|ps| > 0 ==> |r.content| == |ps|)
      && (forall j :: 0 <= j < |ps| && ps[j].ImageUrlPart? ==> r.content[j] == InputImage(ps[j].url))
      && (forall j :: 0 <= j < |ps| && !ps[j].ImageUrlPart? ==>
            r.content[j] == (if r.role == AssistantRole then OutputText(ps[j].text) else InputText(ps[j].text)))
      && (|ps| == 0 && r.role == AssistantRole ==> r.content == [OutputText("")])
      && (|ps| == 0 && (r.role == UserRole || r.role == SystemRole) ==> r.content == [InputText("")])
      && (|ps| == 0 && r.role !in {AssistantRole, UserRole, SystemRole} ==> r.content == [])
    ensures r.role in {AssistantRole, UserRole, SystemRole} ==> |r.content| >= 1
  {
    var role := EffectiveRole(m.role);
    var ps := PartsOf(m.content);
    var isAssistant := role == AssistantRole;
    var converted := seq(|ps|, j requires 0 <= j < |ps| => RetagPart(isAssistant, ps[j]));
    var content :=
      if |converted| > 0 then converted
      else if isAssistant then [OutputText("")]
      else if role == UserRole || role == SystemRole then [InputText("")]
      else [];
    RMessage(role, content)
  }

  /** `toResponsesInput`: one output message per input message, in order. */
  function ToResponsesInput(ms: seq<Message>): (r: seq<RMessage>)
    ensures |r| == |ms|
    ensures forall i :: 0 <= i < |ms| ==> r[i] == ConvertMessage(ms[i])
  {
    if ms == [] then [] else [ConvertMessage(ms[0])] + ToResponsesInput(ms[1..])
  }

  // Reading a responses-shape message back as a chat-shape one.

  function FromResponsesPart(p: RPart): Part {
    match p
    case InputText(t) => TextPart(t)
    case OutputText(t) => TextPart(t)
    case InputImage(u) => ImageUrlPart(u)
  }

  function FromResponsesMessage(m: RMessage): Message {
    Message(m.role, PartList(seq(|m.content|, j requires 0 <= j < |m.content| => FromResponsesPart(m.content[j]))))
  }

  function FromResponsesInput(rs: seq<RMessage>): (r: seq<Message>)
    ensures |r| == |rs|
    ensures forall i :: 0 <= i < |rs| ==> r[i] == FromResponsesMessage(rs[i])
  {
    seq(|rs|, i requires 0 <= i < |rs| => FromResponsesMessage(rs[i]))
  }

  /** A message the responses conversion cannot alter: an explicit role and a
      non-empty array of text and image parts. */
  predicate Canonical(m: Message) {
    && m.role != ""
    && m.content.PartList?
    && |m.content.parts| > 0
    && forall j :: 0 <= j < |m.content.parts| ==> !m.content.parts[j].OtherPart?
  }

  lemma ConvertMessageRoundTrip(m: Message)
    requires Canonical(m)
    ensures FromResponsesMessage(ConvertMessage(m)) == m
  {
    var r := ConvertMessage(m);
    var back := FromResponsesMessage(r);
    assert back.content.parts == m.content.parts;
  }

  /** Converting to the responses shape and reading it back preserves every
      text and image reference, the roles and the order. */
  lemma ResponsesRoundTrip(ms: seq<Message>)
    requires forall i :: 0 <= i < |ms| ==> Canonical(ms[i])
    ensures FromResponsesInput(ToResponsesInput(ms)) == ms
  {
    var back := FromResponsesInput(ToResponsesInput(ms));
    forall i | 0 <= i < |ms| ensures back[i] == ms[i] {
      ConvertMessageRoundTrip(ms[i]);
    }
  }

  // ---------------------------------------------------------------------
  // safeExtractJson
  // ---------------------------------------------------------------------

  /** No '{' occurs before some later '}'. */
  predicate NoBraceFrame(text: string) {
    forall i, j :: 0 <= i < j < |text| ==> !(text[i] == '{' && text[j] == '}')
  }

  /** `safeExtractJson`: the span from the first '{' to the last '}', when the
      first comes before the last; the text unchanged otherwise. */
  function SafeExtractJson(text: string): string {
    match (IndexOf(text, '{'), LastIndexOf(text, '}'))
    case (Some(s), Some(e)) => if e > s then text[s..e + 1] else text
    case (_, _) => text
  }

  /** The rescue either leaves a text without a '{'...'}' frame unchanged, or
      returns its widest brace-framed infix: nothing before it opens a brace and
      nothing after it closes one. */
  lemma SafeExtractJsonSpec(text: string)
    ensures NoBraceFrame(text) ==> SafeExtractJson(text) == text
    ensures !NoBraceFrame(text) ==>
      var r := SafeExtractJson(text);
      && |r| >= 2 && r[0] == '{' && r[|r| - 1] == '}'
      && exists i :: 0 <= i <= |text| - |r| && text[i..i + |r|] == r
                  && '{' !in text[..i] && '}' !in text[i + |r|..]
  {
    match (IndexOf(text, '{'), LastIndexOf(text, '}'))
    case (Some(s), Some(e)) =>
      if e > s {
        assert text[s..s + (e + 1 - s)] == text[s..e + 1];
        assert !NoBraceFrame(text);
      } else {
        forall i, j | 0 <= i < j < |text| ensures !(text[i] == '{' && text[j] == '}') {
          if i < s {
            assert text[..s][i] == text[i];
          } else {
            assert text[e + 1..][j - e - 1] == text[j];
          }
        }
      }
    case (None, _) =>
    case (_, None) =>
  }

  /** Rescuing twice is rescuing once. */
  lemma SafeExtractJsonIdempotent(text: string)
    ensures SafeExtractJson(SafeExtractJson(text)) == SafeExtractJson(text)
  {
    var r := SafeExtractJson(text);
    SafeExtractJsonSpec(text);
    if !NoBraceFrame(text) {
      IndexOfIs(r, '{', 0);
      LastIndexOfIs(r, '}', |r| - 1);
      assert r[0..|r|] == r;
    }
  }

  // ---------------------------------------------------------------------
  // callOpenAI
  // ---------------------------------------------------------------------

  datatype ApiType = ChatApi | ResponsesApi

  datatype RequestBody =
    | ChatBody(model: string, temperature: real, messages: seq<Message>)
    | ResponsesBody(model: string, instructions: Option<string>, input: seq<RMessage>)

  /** A POST issued upstream, with its bearer key. */
  datatype Request = Request(url: string, apiKey: string, body: RequestBody)

  /** What the upstream oracle answers: the HTTP status, the body text of an
      error, and the answer fields of a successful JSON reply ("" when absent):
      `output_text`, `response.output_text`, `choices[0].message.content`. */
  datatype HttpReply = HttpReply(
    status: int, errorText: string,
    outputText: string, nestedOutputText: string, choiceContent: string)

  datatype ApiFailure =
    | HttpStatus(status: int, details: string)  // non-2xx reply
    | EmptyAnswer                               // 2xx reply without an answer
    | NullReply                                 // reply parsed to `null`
    | NoApiBase                                 // the model's lookup has no `apiBase`

  predicate IsOkStatus(status: int) {
    200 <= status <= 299
  }

  /** The index of the first `system` message, if any. */
  function FirstSystemIndex(ms: seq<Message>): (r: Option<nat>)
    ensures r.Some? ==> r.value < |ms| && ms[r.value].role == SystemRole
    ensures forall k :: 0 <= k < |ms| && (r.None? || k < r.value) ==> ms[k].role != SystemRole
  {
    if ms == [] then None
    else if ms[0].role == SystemRole then Some(0)
    else
      match FirstSystemIndex(ms[1..])
      case None => None
      case Some(k) => Some(k + 1)
  }

  /** The part list the instruction extraction reads: an array as is, anything
      else as one text part holding `String(content || '')`. */
  function InstructionParts(c: Content): seq<Part> {
    match c
    case PartList(ps) => ps
    case TextContent(s) => [TextPart(s)]
    case NoContent => [TextPart("")]
  }

  /** The texts of the `text` parts, in order. */
  function TextsOf(ps: seq<Part>): (r: seq<string>)
    ensures |r| <= |ps|
    ensures (forall j :: 0 <= j < |ps| ==> ps[j].TextPart?) ==>
              |r| == |ps| && forall j :: 0 <= j < |ps| ==> r[j] == ps[j].text
    ensures (forall j :: 0 <= j < |ps| ==> !ps[j].TextPart?) ==> r == []
    ensures |ps| == 1 && ps[0].TextPart? ==> r == [ps[0].text]
    ensures |ps| == 1 && !ps[0].TextPart? ==> r == []
  {
    if ps == [] then []
    else if ps[0].TextPart? then [ps[0].text] + TextsOf(ps[1..])
    else TextsOf(ps[1..])
  }

  /** The text filter distributes over concatenation: order is kept. */
  lemma {:induction false} TextsOfAppend(a: seq<Part>, b: seq<Part>)
    ensures TextsOf(a + b) == TextsOf(a) + TextsOf(b)
    decreases |a|
  {
    if a == [] {
      assert a + b == b;
    } else {
      assert (a + b)[1..] == a[1..] + b;
      TextsOfAppend(a[1..], b);
    }
  }

  /** `instructions`: the newline-joined texts of the first system message. */
  function SystemInstructions(ms: seq<Message>): (r: string)
    ensures FirstSystemIndex(ms).None? ==> r == ""
    ensures FirstSystemIndex(ms).Some? && ms[FirstSystemIndex(ms).value].content.TextContent? ==>
              r == ms[FirstSystemIndex(ms).value].content.s
  {
    match FirstSystemIndex(ms)
    case None => ""
    case Some(i) => Join(TextsOf(InstructionParts(ms[i].content)), "\n")
  }

  /** `messages.filter((m) => m.role !== 'system')` */
  function WithoutSystem(ms: seq<Message>): (r: seq<Message>)
    ensures |r| <= |ms|
    ensures forall i :: 0 <= i < |r| ==> r[i].role != SystemRole && r[i] in ms
    ensures forall i :: 0 <= i < |ms| && ms[i].role != SystemRole ==> ms[i] in r
    ensures (forall i :: 0 <= i < |ms| ==> ms[i].role != SystemRole) ==> r == ms
    ensures |ms| == 1 && ms[0].role == SystemRole ==> r == []
  {
    if ms == [] then []
    else if ms[0].role == SystemRole then WithoutSystem(ms[1..])
    else [ms[0]] + WithoutSystem(ms[1..])
  }

  /** The system filter distributes over concatenation: the kept messages
      stay in their original order. */
  lemma {:induction false} WithoutSystemAppend(a: seq<Message>, b: seq<Message>)
    ensures WithoutSystem(a + b) == WithoutSystem(a) + WithoutSystem(b)
    decreases |a|
  {
    if a == [] {
      assert a + b == b;
    } else {
      assert (a + b)[1..] == a[1..] + b;
      WithoutSystemAppend(a[1..], b);
    }
  }

  /** The body of the responses branch: system text lifted into
      `instructions` (omitted when empty), system messages removed from `input`. */
  function ResponsesRequestBody(model: string, ms: seq<Message>): (b: RequestBody)
    ensures b.ResponsesBody? && b.model == model
    ensures b.instructions.None? <==> SystemInstructions(ms) == ""
    ensures b.instructions.Some? ==> b.instructions.value == SystemInstructions(ms)
    ensures forall i :: 0 <= i < |b.input| ==> b.input[i].role != SystemRole
    ensures b.input == ToResponsesInput(WithoutSystem(ms))
  {
    var instructions := SystemInstructions(ms);
    var input := ToResponsesInput(WithoutSystem(ms));
    ResponsesBody(model, if instructions == "" then None else Some(instructions), input)
  }

  /** The request `callOpenAI` sends for an API shape. */
  function BuildRequest(apiType: ApiType, apiBase: string, apiKey: string, model: string,
                        temperature: real, ms: seq<Message>): (req: Request)
    ensures req.apiKey == apiKey && req.body.model == model
    ensures apiType == ChatApi ==>
      req.body == ChatBody(model, temperature, ms) && req.url == StripTrailingSlash(apiBase) + "/chat/completions"
    ensures apiType == ResponsesApi ==>
      req.body == ResponsesRequestBody(model, ms) && req.url == StripTrailingSlash(apiBase) + "/responses"
  {
    var base := StripTrailingSlash(apiBase);
    match apiType
    case ChatApi => Request(base + "/chat/completions", apiKey, ChatBody(model, temperature, ms))
    case ResponsesApi => Request(base + "/responses", apiKey, ResponsesRequestBody(model, ms))
  }

  /** The answer field a successful reply is read from. */
  function ReplyAnswer(apiType: ApiType, reply: HttpReply): (r: string)
    ensures apiType == ChatApi ==> r == reply.choiceContent
    ensures apiType == ResponsesApi ==> r == reply.outputText || r == reply.nestedOutputText
    ensures apiType == ResponsesApi && reply.outputText != "" ==> r == reply.outputText
    ensures apiType == ResponsesApi ==> (r == "" <==> reply.outputText == "" && reply.nestedOutputText == "")
  {
    match apiType
    case ResponsesApi => if reply.outputText != "" then reply.outputText else reply.nestedOutputText
    case ChatApi => reply.choiceContent
  }

  /** `callOpenAI`: one request, then the answer text or the failure. */
  function CallOpenAI(apiType: ApiType, apiBase: string, apiKey: string, model: string,
                      temperature: real, ms: seq<Message>, upstream: Request -> HttpReply)
    : (r: (Request, Result<string, ApiFailure>))
    ensures r.0 == BuildRequest(apiType, apiBase, apiKey, model, temperature, ms)
    ensures r.1.Ok? <==> IsOkStatus(upstream(r.0).status) && ReplyAnswer(apiType, upstream(r.0)) != ""
    ensures r.1.Ok? ==> r.1.value == ReplyAnswer(apiType, upstream(r.0)) && r.1.value != ""
    ensures !IsOkStatus(upstream(r.0).status) ==>
              r.1 == Err(HttpStatus(upstream(r.0).status, upstream(r.0).errorText))
  {
    var req := BuildRequest(apiType, apiBase, apiKey, model, temperature, ms);
    var reply := upstream(req);
    if !IsOkStatus(reply.status) then (req, Err(HttpStatus(reply.status, reply.errorText)))
    else
      var answer := ReplyAnswer(apiType, reply);
      if answer == "" then (req, Err(EmptyAnswer)) else (req, Ok(answer))
  }

  // ---------------------------------------------------------------------
  // Model allow-list
  // ---------------------------------------------------------------------

  datatype ModelConfig = ModelConfig(apiBase: string, apiType: ApiType)

  const OpenAiBase := "https://api.openai.com/v1"

  /** `MODEL_MAP` */
  const ModelMap: map<string, ModelConfig> := map[
    "gpt-4.1" := ModelConfig(OpenAiBase, ChatApi),
    "gpt-4o" := ModelConfig(OpenAiBase, ChatApi),
    "gpt-4o-mini" := ModelConfig(OpenAiBase, ChatApi),
    "gpt-4.1-mini" := ModelConfig(OpenAiBase, ChatApi),
    "gpt-4.1-nano" := ModelConfig(OpenAiBase, ChatApi)
  ]

  const FallbackModel := "gpt-4o"

  /** The model sent upstream: the configured one when it is on the
      allow-list, `gpt-4o` otherwise (membership among the map's own keys). */
  function ResolveModel(configured: string): (r: string)
    ensures r in ModelMap
    ensures configured in ModelMap ==> r == configured
    ensures configured !in ModelMap ==> r == FallbackModel
  {
    if configured in ModelMap then configured else FallbackModel
  }

  /** Every allow-listed model uses the chat-completions shape. */
  lemma AllModelsUseChatShape(name: string)
    requires name in ModelMap
    ensures ModelMap[name].apiType == ChatApi
  {
  }

  /** Property names every plain JavaScript object inherits from
      `Object.prototype`; indexing `MODEL_MAP` with one yields a truthy value. */
  const ObjectPrototypeMembers: set<string> := {
    "constructor", "hasOwnProperty", "isPrototypeOf", "propertyIsEnumerable",
    "toLocaleString", "toString", "valueOf", "__proto__",
    "__defineGetter__", "__defineSetter__", "__lookupGetter__", "__lookupSetter__"
  }

  /** What `MODEL_MAP[name]` evaluates to. */
  datatype ModelLookup = OwnEntry(config: ModelConfig) | InheritedMember | NoEntry

  function LookupAsWritten(name: string): ModelLookup {
    if name in ModelMap then OwnEntry(ModelMap[name])
    else if name in ObjectPrototypeMembers then InheritedMember
    else NoEntry
  }

  /** The model choice as the source writes it: the fallback is taken only
      when the lookup is falsy, so an inherited member name passes through and
      its lookup has no `apiBase`. */
  function ResolveModelAsWritten(configured: string): (r: (string, ModelLookup))
    ensures r.1.OwnEntry? ==> r.0 in ModelMap && r.1.config == ModelMap[r.0]
    ensures configured in ObjectPrototypeMembers ==> r.0 == configured && r.1 == InheritedMember
    ensures configured !in ObjectPrototypeMembers ==> r.0 == ResolveModel(configured) && r.1.OwnEntry?
  {
    var chosen := if LookupAsWritten(configured).NoEntry? then FallbackModel else configured;
    (chosen, LookupAsWritten(chosen))
  }

  /** A configured model named `constructor` is neither on the allow-list nor
      replaced by the fallback, and its lookup carries no configuration. */
  lemma PrototypeModelNameSkipsFallback()
    ensures ResolveModelAsWritten("constructor").0 == "constructor"
    ensures "constructor" !in ModelMap
    ensures ResolveModelAsWritten("constructor").1 == InheritedMember
    ensures ResolveModel("constructor") == FallbackModel
  {
  }

  // ---------------------------------------------------------------------
  // handleChat
  // ---------------------------------------------------------------------

  /** The settings `handleChat` reads (`apiKey` "" when unset). */
  datatype Settings = Settings(apiKey: string, model: string, temperature: real)

  /** A history entry; `text` is `None` when it is not a string. */
  datatype HistoryEntry = HistoryEntry(role: string, text: Option<string>)

  /** The chat payload.  `image` is "" when absent or not a string; `context`
      is the `JSON.stringify` text of the page context when one is given. */
  datatype Payload = Payload(text: string, image: string, context: Option<string>, history: seq<HistoryEntry>)

  const ContextLabel := "Kontext:\n"
  const ContextLimit := 8000

  /** `h.role === 'bot' ? 'assistant' : (h.role === 'user' ? 'user' : 'assistant')` */
  function HistoryRole(role: string): (r: string)
    ensures r == UserRole <==> role == "user"
    ensures r == AssistantRole <==> role != "user"
  {
    if role == "bot" then AssistantRole else if role == "user" then UserRole else AssistantRole
  }

  /** History entries with empty or non-string text are skipped. */
  predicate KeepsEntry(e: HistoryEntry) {
    e.text.Some? && e.text.value != ""
  }

  function HistoryMessage(e: HistoryEntry): Message
    requires KeepsEntry(e)
  {
    Message(HistoryRole(e.role), PartList([TextPart(e.text.value)]))
  }

  /** The history turns of the request, in order. */
  function HistoryMessages(h: seq<HistoryEntry>): (r: seq<Message>)
    ensures |r| <= |h|
    ensures forall i :: 0 <= i < |r| ==>
      && (r[i].role == UserRole || r[i].role == AssistantRole)
      && r[i].content.PartList? && |r[i].content.parts| == 1
      && r[i].content.parts[0].TextPart? && r[i].content.parts[0].text != ""
    ensures (forall j :: 0 <= j < |h| ==> KeepsEntry(h[j])) ==>
      |r| == |h| && forall j :: 0 <= j < |h| ==> r[j] == HistoryMessage(h[j])
    ensures (forall j :: 0 <= j < |h| ==> !KeepsEntry(h[j])) ==> r == []
  {
    if h == [] then []
    else if KeepsEntry(h[0]) then [HistoryMessage(h[0])] + HistoryMessages(h[1..])
    else HistoryMessages(h[1..])
  }

  /** History conversion distributes over concatenation: order is kept. */
  lemma {:induction false} HistoryMessagesAppend(a: seq<HistoryEntry>, b: seq<HistoryEntry>)
    ensures HistoryMessages(a + b) == HistoryMessages(a) + HistoryMessages(b)
    decreases |a|
  {
    if a == [] {
      assert a + b == b;
    } else {
      assert (a + b)[1..] == a[1..] + b;
      HistoryMessagesAppend(a[1..], b);
    }
  }

  /** `JSON.stringify(context).slice(0, 8000)` */
  function ContextSnippet(ctx: string): (r: string)
    ensures IsPrefix(r, ctx)
    ensures |r| == if |ctx| <= ContextLimit then |ctx| else ContextLimit
  {
    if |ctx| <= ContextLimit then ctx else ctx[..ContextLimit]
  }

  /** The parts of the new user turn: its text, its image, then the context. */
  function UserParts(p: Payload): (r: seq<Part>)
    ensures |r| == (if p.text != "" then 1 else 0) + (if p.image != "" then 1 else 0)
                   + (if p.context.Some? then 1 else 0)
    ensures p.text != "" ==> r[0] == TextPart(p.text)
    ensures p.image != "" ==> ImageUrlPart(p.image) in r
    ensures p.context.Some? ==> r[|r| - 1] == TextPart(ContextLabel + ContextSnippet(p.context.value))
  {
    (if p.text != "" then [TextPart(p.text)] else [])
    + (if p.image != "" then [ImageUrlPart(p.image)] else [])
    + (if p.context.Some? then [TextPart(ContextLabel + ContextSnippet(p.context.value))] else [])
  }

  /** The message list: system prompt, history, then the user turn. */
  function BuildMessages(prompt: string, p: Payload): (ms: seq<Message>)
    ensures |ms| >= 2
    ensures ms[0] == Message(SystemRole, TextContent(prompt))
    ensures ms[|ms| - 1] == Message(UserRole, PartList(UserParts(p)))
    ensures ms[1..|ms| - 1] == HistoryMessages(p.history)
    ensures forall i :: 1 <= i < |ms| ==> ms[i].role != SystemRole
  {
    [Message(SystemRole, TextContent(prompt))] + HistoryMessages(p.history)
    + [Message(UserRole, PartList(UserParts(p)))]
  }

  /** The parsed model reply.  `intent` and `answer` are "" when absent or not
      strings; `workflow` is `None` when falsy. */
  datatype Parsed =
    | JsonNull
    | JsonOther  // a number, string, boolean or array
    | JsonObject(intent: string, workflow: Option<Workflow>, answer: string)

  datatype Intent = QaIntent | HelpIntent | UnknownIntent

  datatype ErrorCode = MissingApiKey | InvalidAiJson | ApiError(cause: ApiFailure)

  /** What `handleChat` answers its caller. */
  datatype ChatResult =
    | Failed(code: ErrorCode)
    | WorkflowCreated(workflow: Workflow)
    | Answered(intent: Intent, answer: string)

  /** The translated fallback answers (`ai.assessment`, `ai.unknown`). */
  datatype Fallbacks = Fallbacks(assessment: string, unknown: string)

  /** Classification of the parsed reply.  A `null` reply makes the source's
      property access throw, which its message listener reports as `apiError`. */
  function Classify(v: Parsed, fb: Fallbacks): (r: ChatResult)
    ensures r.Failed? <==> v.JsonNull?
    ensures r.Failed? ==> r.code == ApiError(NullReply)
    ensures r.WorkflowCreated? <==> v.JsonObject? && v.intent == "create_workflow" && v.workflow.Some?
    ensures r.WorkflowCreated? ==> r.workflow == v.workflow.value
    ensures (r.Answered? && r.intent == QaIntent) <==> v.JsonObject? && v.intent == "qa"
    ensures (r.Answered? && r.intent == HelpIntent) <==> v.JsonObject? && v.intent == "help"
    ensures r.Answered? && v.JsonObject? && v.answer != "" ==> r.answer == v.answer
    ensures r.Answered? && !(v.JsonObject? && v.answer != "") ==>
              r.answer == (if r.intent == UnknownIntent then fb.unknown else fb.assessment)
  {
    match v
    case JsonNull => Failed(ApiError(NullReply))
    case JsonOther => Answered(UnknownIntent, fb.unknown)
    case JsonObject(intent, workflow, answer) =>
      if intent == "create_workflow" && workflow.Some? then WorkflowCreated(workflow.value)
      else if intent == "qa" then Answered(QaIntent, if answer != "" then answer else fb.assessment)
      else if intent == "help" then Answered(HelpIntent, if answer != "" then answer else fb.assessment)
      else Answered(UnknownIntent, if answer != "" then answer else fb.unknown)
  }

  /** A `create_workflow` reply without a workflow is downgraded to `unknown`. */
  lemma CreateWithoutWorkflowIsUnknown(answer: string, fb: Fallbacks)
    ensures Classify(JsonObject("create_workflow", None, answer), fb)
         == Answered(UnknownIntent, if answer != "" then answer else fb.unknown)
  {
  }

  /** The result together with every request sent upstream. */
  datatype ChatOutcome = ChatOutcome(result: ChatResult, requests: seq<Request>)

  /** `handleChat`: upstream and `JSON.parse` are oracles (`None` is a parse
      failure).  The model is resolved as the source writes it, so a model
      name inherited from `Object.prototype` reaches `callOpenAI` with no
      `apiBase` and fails before any request is sent. */
  function HandleChat(settings: Settings, p: Payload, prompt: string, fb: Fallbacks,
                      upstream: Request -> HttpReply, parse: string -> Option<Parsed>): (out: ChatOutcome)
    ensures settings.apiKey == "" ==> out == ChatOutcome(Failed(MissingApiKey), [])
    ensures settings.apiKey != "" && settings.model in ObjectPrototypeMembers ==>
      out == ChatOutcome(Failed(ApiError(NoApiBase)), [])
    ensures settings.apiKey != "" && settings.model !in ObjectPrototypeMembers ==>
      && |out.requests| == 1
      && out.requests[0] == BuildRequest(ChatApi, OpenAiBase, settings.apiKey, ResolveModel(settings.model),
                                         settings.temperature, BuildMessages(prompt, p))
    ensures out.result == Failed(MissingApiKey) <==> settings.apiKey == ""
    ensures |out.requests| == 1 ==>
      var reply := upstream(out.requests[0]);
      && (!IsOkStatus(reply.status) ==> out.result == Failed(ApiError(HttpStatus(reply.status, reply.errorText))))
      && (IsOkStatus(reply.status) && reply.choiceContent == "" ==> out.result == Failed(ApiError(EmptyAnswer)))
      && (IsOkStatus(reply.status) && reply.choiceContent != "" ==>
            var v := parse(SafeExtractJson(reply.choiceContent));
            && (v.None? ==> out.result == Failed(InvalidAiJson))
            && (v.Some? ==> out.result == Classify(v.value, fb)))
    ensures out.result == Failed(InvalidAiJson) <==>
      && |out.requests| == 1
      && IsOkStatus(upstream(out.requests[0]).status)
      && upstream(out.requests[0]).choiceContent != ""
      && parse(SafeExtractJson(upstream(out.requests[0]).choiceContent)).None?
    ensures out.result.WorkflowCreated? <==>
      && |out.requests| == 1
      && IsOkStatus(upstream(out.requests[0]).status)
      && upstream(out.requests[0]).choiceContent != ""
      && var v := parse(SafeExtractJson(upstream(out.requests[0]).choiceContent));
         v.Some? && v.value.JsonObject? && v.value.intent == "create_workflow" && v.value.workflow.Some?
    ensures out.result.WorkflowCreated? ==>
      var v := parse(SafeExtractJson(upstream(out.requests[0]).choiceContent));
      v.Some? && v.value.JsonObject? && v.value.workflow == Some(out.result.workflow)
  {
    if settings.apiKey == "" then ChatOutcome(Failed(MissingApiKey), [])
    else
      var ms := BuildMessages(prompt, p);
      var (model, lookup) := ResolveModelAsWritten(settings.model);
      if !lookup.OwnEntry? then ChatOutcome(Failed(ApiError(NoApiBase)), [])
      else
        var mc := lookup.config;
        var (req, answer) := CallOpenAI(mc.apiType, mc.apiBase, settings.apiKey, model, settings.temperature, ms, upstream);
        match answer
        case Err(e) => ChatOutcome(Failed(ApiError(e)), [req])
        case Ok(text) =>
          match parse(SafeExtractJson(text))
          case None => ChatOutcome(Failed(InvalidAiJson), [req])
          case Some(v) => ChatOutcome(Classify(v, fb), [req])
  }

  /** With a configured key and an allow-listed or unknown model, a reply
      whose rescued JSON parses is classified as it stands; a model named
      `constructor` never reaches upstream. */
  lemma HandleChatEndToEnd(key: string, model: string, temperature: real, p: Payload, prompt: string,
                           fb: Fallbacks, upstream: Request -> HttpReply, parse: string -> Option<Parsed>)
    requires key != ""
    ensures model !in ObjectPrototypeMembers ==>
      var req := BuildRequest(ChatApi, OpenAiBase, key, ResolveModel(model), temperature, BuildMessages(prompt, p));
      var reply := upstream(req);
      IsOkStatus(reply.status) && reply.choiceContent != "" && parse(SafeExtractJson(reply.choiceContent)).Some? ==>
        HandleChat(Settings(key, model, temperature), p, prompt, fb, upstream, parse)
          == ChatOutcome(Classify(parse(SafeExtractJson(reply.choiceContent)).value, fb), [req])
    ensures HandleChat(Settings(key, "constructor", temperature), p, prompt, fb, upstream, parse)
         == ChatOutcome(Failed(ApiError(NoApiBase)), [])
  {
  }
}
