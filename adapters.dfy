/** The two provider adapters of server.js: the OpenAI-compatible chat
    completion call (used for OpenAI and DeepSeek, server.js:19-41) and the
    Gemini generate-content call (server.js:44-62). Each adapter checks the
    key, builds one request, hands it to `fetch` and normalises the reply.
    `fetch` is a parameter: it maps the request to what the network did
    before the deadline. */
module Adapters {
  import opened JsValues
  import opened JsText
  import opened Async

  // ---------------------------------------------------------------------
  // Requests
  // ---------------------------------------------------------------------

  datatype Header = Header(name: string, value: string)
  datatype ChatMessage = ChatMessage(role: string, content: string)
  datatype Part = Part(text: string)
  datatype Content = Content(role: string, parts: seq<Part>)

  /** The JSON bodies the adapters send. The temperature 0.7 is kept as a
      count of tenths. */
  datatype Body =
    | ChatCompletion(model: Json, messages: seq<ChatMessage>, temperatureTenths: int, stream: bool)
    | GenerateContent(contents: seq<Content>, temperatureTenths: int)

  /** A POST request: the URL, its headers and its JSON body. */
  datatype HttpRequest = HttpRequest(url: string, headers: seq<Header>, body: Body)

  /** What `res.json()` produced: a value, or a parse failure. */
  datatype Parsed = ParsedJson(value: Json) | NotJson

  /** What `fetch` did with a request before the deadline: a response with
      its status and body, a transport failure (the rejection of `fetch`),
      or nothing yet. */
  datatype Delivery =
    | Answered(status: int, parsed: Parsed)
    | NetworkError(message: string)
    | Overdue

  /** What an adapter resolves with: `{ text, usage }`. */
  datatype Reply = Reply(text: Json, usage: Json)

  const MissingApiKey := "Missing API key"
  const TemperatureTenths := 7
  const DefaultChatModel := "gpt-4o-mini"
  const DefaultGeminiModel := "gemini-1.5-flash"
  const ChatCompletionsPath := "/v1/chat/completions"
  const GeminiOrigin := "https://generativelanguage.googleapis.com"
  const GeminiModelsBase := GeminiOrigin + "/v1beta/models/"

  /** `ok(x)` (server.js:12): a string with at least one character that
      `trim()` keeps. */
  predicate Ok(x: Json)
    ensures Ok(x) ==> x.Str? && x.s != ""
  {
    Truthy(x) && x.Str? && |Trim(x.s)| > 0
  }

  /** `ok` accepts exactly the strings that are not blank: `undefined`,
      `null`, non-strings, "" and all-whitespace strings fail. */
  lemma OkIffNonBlank(x: Json)
    ensures Ok(x) <==> x.Str? && exists i :: 0 <= i < |x.s| && !IsJsWhitespace(x.s[i])
  {
    if x.Str? {
      TrimNonEmptyIffNotBlank(x.s);
    }
  }

  /** The request `callOpenAICompatible` sends, or "Missing API key" when
      `ok(apiKey)` fails (server.js:20-35). */
  function BuildChatRequest(baseURL: string, apiKey: Json, model: Json, prompt: string): (r: Result<HttpRequest>)
    ensures r.Failure? <==> !Ok(apiKey)
    ensures r.Failure? ==> r.error == MissingApiKey
    ensures r.Success? ==>
      && r.value.url == baseURL + ChatCompletionsPath
      && r.value.body.ChatCompletion?
      && r.value.body.messages == [ChatMessage("user", prompt)]
      && !r.value.body.stream
      && r.value.body.temperatureTenths == 7
      && (Truthy(model) ==> r.value.body.model == model)
      && (!Truthy(model) ==> r.value.body.model == Str(DefaultChatModel))
      && Header("Authorization", "Bearer " + apiKey.s) in r.value.headers
  {
    if !Ok(apiKey) then Failure(MissingApiKey)
    else
      Success(HttpRequest(
        baseURL + ChatCompletionsPath,
        [Header("Content-Type", "application/json"), Header("Authorization", "Bearer " + apiKey.s)],
        ChatCompletion(Or(model, Str(DefaultChatModel)), [ChatMessage("user", prompt)], TemperatureTenths, false)))
  }

  /** The URL `callGemini` posts to: the model in the path and the key as
      the `key` query parameter, both through `encodeURIComponent`. */
  function GeminiUrl(model: Json, key: string): (u: string)
    ensures GeminiModelsBase <= u
  {
    GeminiModelsBase + EncodeURIComponent(ToString(model)) + ":generateContent?key=" + EncodeURIComponent(key)
  }

  /** A character outside the URI-safe set never appears in the output of
      `encodeURIComponent`. */
  lemma {:induction false} EncodedLacks(s: string, c: char)
    requires !UriSafe(c)
    ensures c !in EncodeURIComponent(s)
  {
    EncodedIsUriSafe(s);
  }

  /** Whatever fills the model slot, as long as it holds no `?`, the text
      after the first `?` is the key parameter. */
  lemma {:induction false} GeminiQueryAfterModel(m: string, k: string)
    requires '?' !in m
    ensures AfterFirst(GeminiModelsBase + m + ":generateContent?key=" + k, '?') == "key=" + k
  {
    var front := GeminiModelsBase + m + ":generateContent";
    assert GeminiModelsBase + m + ":generateContent?key=" + k == front + ['?'] + ("key=" + k);
    AfterFirstOfJoin(front, '?', "key=" + k);
  }

  /** The query of the Gemini URL is the single parameter `key`, holding
      the encoded key: neither the model nor the key can add a parameter,
      a fragment or a path segment. */
  lemma GeminiUrlQueryIsKey(model: Json, key: string)
    ensures AfterFirst(GeminiUrl(model, key), '?') == "key=" + EncodeURIComponent(key)
    ensures '&' !in EncodeURIComponent(key) && '#' !in EncodeURIComponent(key)
    ensures var m := EncodeURIComponent(ToString(model));
      '?' !in m && '#' !in m && '/' !in m
  {
    EncodedLacks(ToString(model), '?');
    EncodedLacks(ToString(model), '#');
    EncodedLacks(ToString(model), '/');
    EncodedLacks(key, '&');
    EncodedLacks(key, '#');
    GeminiQueryAfterModel(EncodeURIComponent(ToString(model)), EncodeURIComponent(key));
  }

  /** Without a (truthy) model the request goes to `gemini-1.5-flash`,
      which `encodeURIComponent` leaves as it is. */
  lemma GeminiDefaultModelUrl(apiKey: Json, model: Json, prompt: string)
    requires !Truthy(model)
    ensures BuildGeminiRequest(apiKey, model, prompt).Success? ==>
      BuildGeminiRequest(apiKey, model, prompt).value.url
        == GeminiModelsBase + DefaultGeminiModel + ":generateContent?key=" + EncodeURIComponent(apiKey.s)
  {
    DefaultGeminiModelIsUnreserved();
    EncodeUnreservedIsIdentity(DefaultGeminiModel);
  }

  lemma DefaultGeminiModelIsUnreserved()
    ensures forall i :: 0 <= i < |DefaultGeminiModel| ==> Unreserved(DefaultGeminiModel[i])
  {
  }

  /** The request `callGemini` sends, or "Missing API key" when `ok(apiKey)`
      fails (server.js:45-56). Unlike the OpenAI-compatible request, the key
      travels in the URL and no Authorization header is sent. */
  function BuildGeminiRequest(apiKey: Json, model: Json, prompt: string): (r: Result<HttpRequest>)
    ensures r.Failure? <==> !Ok(apiKey)
    ensures r.Failure? ==> r.error == MissingApiKey
    ensures r.Success? ==>
      && r.value.url == GeminiUrl(Or(model, Str(DefaultGeminiModel)), apiKey.s)
      && GeminiModelsBase <= r.value.url
      && AfterFirst(r.value.url, '?') == "key=" + EncodeURIComponent(apiKey.s)
      && (forall h :: h in r.value.headers ==> h.name != "Authorization")
      && r.value.body == GenerateContent([Content("user", [Part(prompt)])], 7)
  {
    if !Ok(apiKey) then Failure(MissingApiKey)
    else
      var m := Or(model, Str(DefaultGeminiModel));
      GeminiUrlQueryIsKey(m, apiKey.s);
      Success(HttpRequest(
        GeminiUrl(m, apiKey.s),
        [Header("Content-Type", "application/json")],
        GenerateContent([Content("user", [Part(prompt)])], TemperatureTenths)))
  }

  // ---------------------------------------------------------------------
  // Response normalisation (shared part)
  // ---------------------------------------------------------------------

  /** `res.ok` */
  predicate IsOkStatus(status: int) {
    200 <= status <= 299
  }

  /** The message standing in for a body that is not JSON. */
  function NonJsonMessage(status: int): string {
    "Non-JSON response (" + IntToString(status) + ")"
  }

  /** `data`: the parsed body, or `{ error: { message: "Non-JSON response (<status>)" } }`
      when parsing failed (server.js:36, 57). */
  function BodyOrSubstitute(status: int, parsed: Parsed): (data: Json)
    ensures parsed.ParsedJson? ==> data == parsed.value
    ensures parsed.NotJson? ==> Prop(Prop(data, "error"), "message") == Str(NonJsonMessage(status))
  {
    match parsed
    case ParsedJson(v) => v
    case NotJson => Obj([("error", Obj([("message", Str(NonJsonMessage(status)))]))])
  }

  /** The message of the error thrown on a non-2xx status:
      `data?.error?.message || "HTTP <status>"`, as `String(...)` by the
      `Error` constructor (server.js:37, 58). */
  function StatusErrorMessage(status: int, data: Json): (msg: string)
    ensures var m := Prop(Prop(data, "error"), "message");
      && (Truthy(m) ==> msg == ToString(m))
      && (!Truthy(m) ==> msg == "HTTP " + IntToString(status))
  {
    ToString(Or(Prop(Prop(data, "error"), "message"), Str("HTTP " + IntToString(status))))
  }

  /** On a non-2xx status an unparsable body reports
      "Non-JSON response (<status>)". */
  lemma StatusErrorMessageCases(status: int, parsed: Parsed)
    ensures parsed.NotJson? ==> StatusErrorMessage(status, BodyOrSubstitute(status, parsed)) == NonJsonMessage(status)
  {
  }

  // ---------------------------------------------------------------------
  // OpenAI-compatible response
  // ---------------------------------------------------------------------

  /** `data?.choices?.[0]?.message?.content` */
  function ChoiceContent(data: Json): Json {
    Prop(Prop(Index0(Prop(data, "choices")), "message"), "content")
  }

  /** The outcome of a chat-completion response with status `status`
      (server.js:36-40). */
  function NormalizeChat(status: int, parsed: Parsed): (s: Settlement<Reply>)
    ensures s.Rejected? <==> !IsOkStatus(status)
    ensures s.Rejected? ==> s.message == StatusErrorMessage(status, BodyOrSubstitute(status, parsed))
    ensures s.Fulfilled? ==>
      var content := ChoiceContent(BodyOrSubstitute(status, parsed));
      && (Nullish(content) ==> s.value.text == Str(""))
      && (!Nullish(content) ==> s.value.text == content)
      && !Nullish(s.value.text)
    ensures s.Fulfilled? ==>
      var usage := Prop(BodyOrSubstitute(status, parsed), "usage");
      s.value.usage == if Truthy(usage) then usage else Null
  {
    var data := BodyOrSubstitute(status, parsed);
    if !IsOkStatus(status) then Rejected(StatusErrorMessage(status, data))
    else
      var text := Coalesce(ChoiceContent(data), Str(""));
      var usage := Or(Prop(data, "usage"), Null);
      Fulfilled(Reply(text, usage))
  }

  /** An existing empty content is kept (`??`, not `||`), and a 2xx reply
      that is not JSON succeeds with empty text and no usage. */
  lemma ChatTextDefaults(status: int, parsed: Parsed)
    requires IsOkStatus(status)
    ensures ChoiceContent(BodyOrSubstitute(status, parsed)) == Str("") ==>
      NormalizeChat(status, parsed) == Fulfilled(Reply(Str(""), Or(Prop(BodyOrSubstitute(status, parsed), "usage"), Null)))
    ensures parsed.NotJson? ==> NormalizeChat(status, parsed) == Fulfilled(Reply(Str(""), Null))
  {
    if parsed.NotJson? {
      var fields := BodyOrSubstitute(status, parsed).fields;
      LookupMissing(fields, "choices");
      LookupMissing(fields, "usage");
    }
  }

  /** `callOpenAICompatible` up to the deadline (server.js:19-41). */
  function CallOpenAICompatible(baseURL: string, apiKey: Json, model: Json, prompt: string,
                                fetch: HttpRequest -> Delivery): (p: Progress<Reply>)
    ensures !Ok(apiKey) ==> p == SettledBy(Rejected(MissingApiKey))
    ensures Ok(apiKey) ==>
      var req := BuildChatRequest(baseURL, apiKey, model, prompt).value;
      match fetch(req)
      case Answered(status, parsed) => p == SettledBy(NormalizeChat(status, parsed))
      case NetworkError(m) => p == SettledBy(Rejected(m))
      case Overdue => p == StillPending
  {
    match BuildChatRequest(baseURL, apiKey, model, prompt)
    case Failure(e) => SettledBy(Rejected(e))
    case Success(req) =>
      match fetch(req)
      case Answered(status, parsed) => SettledBy(NormalizeChat(status, parsed))
      case NetworkError(m) => SettledBy(Rejected(m))
      case Overdue => StillPending
  }

  // ---------------------------------------------------------------------
  // Gemini response
  // ---------------------------------------------------------------------

  /** `data?.candidates?.[0]?.content?.parts` */
  function CandidateParts(data: Json): Json {
    Prop(Prop(Index0(Prop(data, "candidates")), "content"), "parts")
  }

  /** The message of the `TypeError` V8 throws when `p.text` is read from a
      nullish part. */
  function ReadTextOfNullish(p: Json): string {
    "Cannot read properties of " + (if p.Null? then "null" else "undefined") + " (reading 'text')"
  }

  /** The message of the `TypeError` V8 throws when `parts` is neither
      nullish nor an array, so that `parts.map` is not a function. */
  const PartsMapNotFunction := "data?.candidates?.[0]?.content?.parts?.map is not a function"

  /** `p.text ?? ""` for one part. */
  function PartText(p: Json): Json {
    Coalesce(Prop(p, "text"), Str(""))
  }

  /** `parts.map(p => p.text ?? "")`: stops with a `TypeError` at the first
      nullish part. */
  function MapPartTexts(parts: seq<Json>): (r: Result<seq<Json>>)
    ensures r.Success? <==> forall i :: 0 <= i < |parts| ==> !Nullish(parts[i])
    ensures r.Success? ==> |r.value| == |parts| && forall i :: 0 <= i < |parts| ==> r.value[i] == PartText(parts[i])
    ensures r.Failure? ==> exists i :: 0 <= i < |parts| && Nullish(parts[i]) && r.error == ReadTextOfNullish(parts[i])
    decreases |parts|
  {
    if |parts| == 0 then Success([])
    else if Nullish(parts[0]) then Failure(ReadTextOfNullish(parts[0]))
    else
      match MapPartTexts(parts[1..])
      case Failure(e) => Failure(e)
      case Success(rest) => Success([PartText(parts[0])] + rest)
  }

  /** `data?.candidates?.[0]?.content?.parts?.map(p => p.text ?? "").join("") ?? ""`
      (server.js:59). */
  function GeminiText(data: Json): (r: Result<string>)
    ensures var parts := CandidateParts(data);
      && (Nullish(parts) ==> r == Success(""))
      && (!Nullish(parts) && !parts.Arr? ==> r == Failure(PartsMapNotFunction))
      && (parts.Arr? ==> (r.Success? <==> forall i :: 0 <= i < |parts.items| ==> !Nullish(parts.items[i])))
      && (parts.Arr? && r.Failure? ==>
            exists i :: 0 <= i < |parts.items| && Nullish(parts.items[i]) && r.error == ReadTextOfNullish(parts.items[i]))
      && (parts.Arr? && r.Success? ==> r.value == Join(MapPartTexts(parts.items).value, ""))
  {
    var parts := CandidateParts(data);
    if Nullish(parts) then Success("")
    else if !parts.Arr? then Failure(PartsMapNotFunction)
    else
      match MapPartTexts(parts.items)
      case Failure(e) => Failure(e)
      case Success(texts) => Success(Join(texts, ""))
  }

  /** The Gemini text is the in-order concatenation of the parts' texts: the
      texts of `parts` followed by one more part are the texts so far
      followed by that part's text. No candidates or no parts give "". */
  lemma GeminiTextAppendsPart(data: Json, before: seq<Json>, last: Json)
    requires CandidateParts(data) == Arr(before + [last])
    requires GeminiText(data).Success?
    ensures MapPartTexts(before).Success?
    ensures GeminiText(data).value == Join(MapPartTexts(before).value, "") + Join([PartText(last)], "")
  {
    var all := before + [last];
    assert forall i :: 0 <= i < |before| ==> before[i] == all[i];
    var texts := MapPartTexts(all).value;
    assert texts == MapPartTexts(before).value + [PartText(last)];
    JoinEmptySepAppend(MapPartTexts(before).value, [PartText(last)]);
  }

  /** When every part carries a string `text`, the Gemini text is those
      strings concatenated in order. */
  lemma GeminiTextOfStringParts(data: Json, texts: seq<string>)
    requires CandidateParts(data).Arr?
    requires |CandidateParts(data).items| == |texts|
    requires forall i :: 0 <= i < |texts| ==> Prop(CandidateParts(data).items[i], "text") == Str(texts[i])
    ensures GeminiText(data) == Success(Concat(texts))
  {
    var parts := CandidateParts(data).items;
    forall i | 0 <= i < |parts| ensures !Nullish(parts[i]) {
    }
    var mapped := MapPartTexts(parts).value;
    JoinOfStrings(mapped, texts);
  }

  /** The outcome of a generate-content response with status `status`
      (server.js:57-61). */
  function NormalizeGemini(status: int, parsed: Parsed): (s: Settlement<Reply>)
    ensures !IsOkStatus(status) ==> s == Rejected(StatusErrorMessage(status, BodyOrSubstitute(status, parsed)))
    ensures IsOkStatus(status) ==>
      var text := GeminiText(BodyOrSubstitute(status, parsed));
      && (s.Fulfilled? <==> text.Success?)
      && (s.Fulfilled? ==> text.Success? && s.value.text == Str(text.value))
      && (s.Rejected? ==> text.Failure? && s.message == text.error)
    ensures s.Fulfilled? ==>
      var usage := Prop(BodyOrSubstitute(status, parsed), "usageMetadata");
      s.value.usage == if Truthy(usage) then usage else Null
  {
    var data := BodyOrSubstitute(status, parsed);
    if !IsOkStatus(status) then Rejected(StatusErrorMessage(status, data))
    else
      match GeminiText(data)
      case Failure(e) => Rejected(e)
      case Success(text) => Fulfilled(Reply(Str(text), Or(Prop(data, "usageMetadata"), Null)))
  }

  /** `callGemini` up to the deadline (server.js:44-62). */
  function CallGemini(apiKey: Json, model: Json, prompt: string, fetch: HttpRequest -> Delivery): (p: Progress<Reply>)
    ensures !Ok(apiKey) ==> p == SettledBy(Rejected(MissingApiKey))
    ensures Ok(apiKey) ==>
      var req := BuildGeminiRequest(apiKey, model, prompt).value;
      match fetch(req)
      case Answered(status, parsed) => p == SettledBy(NormalizeGemini(status, parsed))
      case NetworkError(m) => p == SettledBy(Rejected(m))
      case Overdue => p == StillPending
  {
    match BuildGeminiRequest(apiKey, model, prompt)
    case Failure(e) => SettledBy(Rejected(e))
    case Success(req) =>
      match fetch(req)
      case Answered(status, parsed) => SettledBy(NormalizeGemini(status, parsed))
      case NetworkError(m) => SettledBy(Rejected(m))
      case Overdue => StillPending
  }

  /** A key failing `ok` is refused before any request exists: the chat
      adapter's result is the same whatever the network would have done. */
  lemma ChatMissingKeyNeedsNoNetwork(baseURL: string, apiKey: Json, model: Json, prompt: string,
                                     f1: HttpRequest -> Delivery, f2: HttpRequest -> Delivery)
    requires !Ok(apiKey)
    ensures CallOpenAICompatible(baseURL, apiKey, model, prompt, f1)
         == CallOpenAICompatible(baseURL, apiKey, model, prompt, f2)
         == SettledBy(Rejected(MissingApiKey))
  {
  }

  /** The same for the Gemini adapter. */
  lemma GeminiMissingKeyNeedsNoNetwork(apiKey: Json, model: Json, prompt: string,
                                       f1: HttpRequest -> Delivery, f2: HttpRequest -> Delivery)
    requires !Ok(apiKey)
    ensures CallGemini(apiKey, model, prompt, f1) == CallGemini(apiKey, model, prompt, f2)
         == SettledBy(Rejected(MissingApiKey))
  {
  }
}
