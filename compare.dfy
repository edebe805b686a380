/** The `POST /api/compare` handler (server.js:65-92): validate the prompt,
    run the three adapters each behind a 60-second deadline, turn each
    settlement into an outcome record and answer with the three records
    under fixed keys. The network is the `fetch` parameter and the elapsed
    milliseconds of each branch are the `elapsed` parameter. */
module Compare {
  import opened JsValues
  import opened JsText
  import opened Async
  import opened Adapters

  datatype Provider = OpenAI | DeepSeek | Gemini

  /** The deadline label of each branch. */
  function Label(p: Provider): string {
    match p
    case OpenAI => "OpenAI"
    case DeepSeek => "DeepSeek"
    case Gemini => "Gemini"
  }

  /** The response key of each branch. */
  function Key(p: Provider): string {
    match p
    case OpenAI => "openai"
    case DeepSeek => "deepseek"
    case Gemini => "gemini"
  }

  const DeadlineMs := 60000
  const OpenAIBaseURL := "https://api.openai.com"
  const DeepSeekBaseURL := "https://api.deepseek.com"
  const DeepSeekDefaultModel := "deepseek-chat"
  const MissingPrompt := "Missing prompt"

  /** One branch's record: `{ ok: true, text, usage, ms }` or
      `{ ok: false, error, ms }`. */
  datatype Outcome =
    | Succeeded(text: Json, usage: Json, ms: int)
    | Failed(error: string, ms: int)

  /** The `.then` / `.catch` pair of a branch (server.js:75, 81, 87): a
      fulfilled adapter spreads its `{ text, usage }`, a rejection keeps
      its message. */
  function ToOutcome(s: Settlement<Reply>, ms: int): (o: Outcome)
    ensures o.Succeeded? <==> s.Fulfilled?
    ensures s.Fulfilled? ==> o.text == s.value.text && o.usage == s.value.usage
    ensures s.Rejected? ==> o.error == s.message
    ensures o.ms == ms
  {
    match s
    case Fulfilled(r) => Succeeded(r.text, r.usage, ms)
    case Rejected(m) => Failed(m, ms)
  }

  /** The record as the JSON object the handler sends. */
  function OutcomeJson(o: Outcome): (j: Json)
    ensures Prop(j, "ok") == Bool(o.Succeeded?)
    ensures Keys(j) == if o.Succeeded? then ["ok", "text", "usage", "ms"] else ["ok", "error", "ms"]
    ensures o.Succeeded? ==> Prop(j, "text") == o.text && Prop(j, "usage") == o.usage
    ensures o.Failed? ==> Prop(j, "error") == Str(o.error)
    ensures Prop(j, "ms") == Num(o.ms)
  {
    match o
    case Succeeded(text, usage, ms) =>
      var fields := [("ok", Bool(true)), ("text", text), ("usage", usage), ("ms", Num(ms))];
      LookupFindsLast(fields, "ok", 0);
      LookupFindsLast(fields, "text", 1);
      LookupFindsLast(fields, "usage", 2);
      LookupFindsLast(fields, "ms", 3);
      Obj(fields)
    case Failed(error, ms) =>
      var fields := [("ok", Bool(false)), ("error", Str(error)), ("ms", Num(ms))];
      LookupFindsLast(fields, "ok", 0);
      LookupFindsLast(fields, "error", 1);
      LookupFindsLast(fields, "ms", 2);
      Obj(fields)
  }

  /** Every record carries exactly one of `text` and `error`, and `ok`
      says which. */
  lemma OutcomeHasTextXorError(o: Outcome)
    ensures ("text" in Keys(OutcomeJson(o))) != ("error" in Keys(OutcomeJson(o)))
    ensures ("text" in Keys(OutcomeJson(o))) <==> Prop(OutcomeJson(o), "ok") == Bool(true)
  {
  }

  /** The request body after `req.body || {}`: its fields read by the
      destructuring on server.js:66. */
  function Field(reqBody: Json, name: string): (f: Json)
    ensures reqBody.Obj? ==> f == Lookup(reqBody.fields, name)
    ensures !reqBody.Obj? ==> f == Undefined
  {
    Prop(Or(reqBody, Obj([])), name)
  }

  /** The request a branch sends, when its key passes `ok`. */
  function BranchRequest(p: Provider, reqBody: Json, prompt: string): Result<HttpRequest> {
    match p
    case OpenAI =>
      BuildChatRequest(OpenAIBaseURL, Field(reqBody, "openaiKey"), Field(reqBody, "openaiModel"), prompt)
    case DeepSeek =>
      BuildChatRequest(DeepSeekBaseURL, Field(reqBody, "deepseekKey"),
                       Or(Field(reqBody, "deepseekModel"), Str(DeepSeekDefaultModel)), prompt)
    case Gemini =>
      BuildGeminiRequest(Field(reqBody, "geminiKey"), Field(reqBody, "geminiModel"), prompt)
  }

  /** The adapter call of one branch, up to the deadline (server.js:72, 78, 84).
      DeepSeek substitutes its own default model before the adapter's. */
  function Adapter(p: Provider, reqBody: Json, prompt: string, fetch: HttpRequest -> Delivery): (a: Progress<Reply>)
    ensures BranchRequest(p, reqBody, prompt).Failure? ==> a == SettledBy(Rejected(MissingApiKey))
    ensures BranchRequest(p, reqBody, prompt).Success? ==>
      match fetch(BranchRequest(p, reqBody, prompt).value)
      case Answered(status, parsed) =>
        a == SettledBy(if p == Gemini then NormalizeGemini(status, parsed) else NormalizeChat(status, parsed))
      case NetworkError(m) => a == SettledBy(Rejected(m))
      case Overdue => a == StillPending
  {
    match p
    case OpenAI =>
      CallOpenAICompatible(OpenAIBaseURL, Field(reqBody, "openaiKey"), Field(reqBody, "openaiModel"), prompt, fetch)
    case DeepSeek =>
      CallOpenAICompatible(DeepSeekBaseURL, Field(reqBody, "deepseekKey"),
                           Or(Field(reqBody, "deepseekModel"), Str(DeepSeekDefaultModel)), prompt, fetch)
    case Gemini =>
      CallGemini(Field(reqBody, "geminiKey"), Field(reqBody, "geminiModel"), prompt, fetch)
  }

  /** One branch: the adapter raced against the deadline, then mapped to
      its record (server.js:71-87). */
  function Branch(p: Provider, reqBody: Json, prompt: string,
                  fetch: HttpRequest -> Delivery, elapsed: Provider -> int): (o: Outcome)
    ensures o.ms == elapsed(p)
  {
    ToOutcome(WithTimeout(Adapter(p, reqBody, prompt, fetch), DeadlineMs, Label(p)), elapsed(p))
  }

  datatype HttpResponse = HttpResponse(status: int, body: Json)

  /** The prompt the handler validates. */
  function Prompt(reqBody: Json): Json {
    Field(reqBody, "prompt")
  }

  /** The 200 body: the three records under their keys, in the fixed
      order openai, deepseek, gemini (server.js:90-91). */
  function ComparisonBody(openai: Outcome, deepseek: Outcome, gemini: Outcome): (j: Json)
    ensures Keys(j) == [Key(OpenAI), Key(DeepSeek), Key(Gemini)]
    ensures Prop(j, Key(OpenAI)) == OutcomeJson(openai)
    ensures Prop(j, Key(DeepSeek)) == OutcomeJson(deepseek)
    ensures Prop(j, Key(Gemini)) == OutcomeJson(gemini)
  {
    var fields := [
      (Key(OpenAI), OutcomeJson(openai)),
      (Key(DeepSeek), OutcomeJson(deepseek)),
      (Key(Gemini), OutcomeJson(gemini))];
    assert fields[1].0 != Key(OpenAI) && fields[2].0 != Key(OpenAI) && fields[2].0 != Key(DeepSeek);
    LookupFindsLast(fields, Key(OpenAI), 0);
    LookupFindsLast(fields, Key(DeepSeek), 1);
    LookupFindsLast(fields, Key(Gemini), 2);
    Obj(fields)
  }

  /** `POST /api/compare` (server.js:65-92). */
  function HandleCompare(reqBody: Json, fetch: HttpRequest -> Delivery, elapsed: Provider -> int): (r: HttpResponse)
    ensures !Ok(Prompt(reqBody)) ==> r == HttpResponse(400, Obj([("error", Str(MissingPrompt))]))
    ensures Ok(Prompt(reqBody)) ==>
      && r.status == 200
      && r.body == ComparisonBody(
           Branch(OpenAI, reqBody, Prompt(reqBody).s, fetch, elapsed),
           Branch(DeepSeek, reqBody, Prompt(reqBody).s, fetch, elapsed),
           Branch(Gemini, reqBody, Prompt(reqBody).s, fetch, elapsed))
  {
    var prompt := Prompt(reqBody);
    if !Ok(prompt) then HttpResponse(400, Obj([("error", Str(MissingPrompt))]))
    else
      HttpResponse(200, ComparisonBody(
        Branch(OpenAI, reqBody, prompt.s, fetch, elapsed),
        Branch(DeepSeek, reqBody, prompt.s, fetch, elapsed),
        Branch(Gemini, reqBody, prompt.s, fetch, elapsed)))
  }

  /** The response keys, spelled out. */
  lemma ProviderKeys()
    ensures [Key(OpenAI), Key(DeepSeek), Key(Gemini)] == ["openai", "deepseek", "gemini"]
  {
  }

  /** A valid prompt is answered with 200 and exactly one record per
      provider, under the keys openai, deepseek and gemini in that order. */
  lemma ValidPromptAnswersEveryProvider(reqBody: Json, fetch: HttpRequest -> Delivery, elapsed: Provider -> int)
    requires Ok(Prompt(reqBody))
    ensures HandleCompare(reqBody, fetch, elapsed).status == 200
    ensures Keys(HandleCompare(reqBody, fetch, elapsed).body) == ["openai", "deepseek", "gemini"]
  {
    ProviderKeys();
  }

  /** Under a valid prompt each provider's record is its own branch's
      outcome and carries `text` or `error`, never both and never neither. */
  lemma ValidPromptRecord(p: Provider, reqBody: Json, fetch: HttpRequest -> Delivery, elapsed: Provider -> int)
    requires Ok(Prompt(reqBody))
    ensures var record := Prop(HandleCompare(reqBody, fetch, elapsed).body, Key(p));
      && record == OutcomeJson(Branch(p, reqBody, Prompt(reqBody).s, fetch, elapsed))
      && ("text" in Keys(record)) != ("error" in Keys(record))
  {
    OutcomeHasTextXorError(Branch(p, reqBody, Prompt(reqBody).s, fetch, elapsed));
  }

  /** A prompt failing `ok` is answered with 400 before any adapter runs:
      the answer does not depend on the network or the clock. */
  lemma BadPromptSkipsProviders(reqBody: Json, f1: HttpRequest -> Delivery, f2: HttpRequest -> Delivery,
                                e1: Provider -> int, e2: Provider -> int)
    requires !Ok(Prompt(reqBody))
    ensures HandleCompare(reqBody, f1, e1) == HandleCompare(reqBody, f2, e2)
    ensures HandleCompare(reqBody, f1, e1).status == 400
  {
  }

  /** A branch's record depends only on its own request's fate and its own
      elapsed time: networks that treat that request alike give the same
      record, whatever they do with the other providers' requests. */
  lemma BranchIsolation(p: Provider, reqBody: Json, prompt: string,
                        f1: HttpRequest -> Delivery, f2: HttpRequest -> Delivery,
                        e1: Provider -> int, e2: Provider -> int)
    requires BranchRequest(p, reqBody, prompt).Success? ==>
      f1(BranchRequest(p, reqBody, prompt).value) == f2(BranchRequest(p, reqBody, prompt).value)
    requires e1(p) == e2(p)
    ensures Branch(p, reqBody, prompt, f1, e1) == Branch(p, reqBody, prompt, f2, e2)
  {
  }

  /** A branch whose key fails `ok` reports "Missing API key" whatever the
      network does; the deadline never overtakes it. */
  lemma MissingKeyOutcome(p: Provider, reqBody: Json, prompt: string,
                          fetch: HttpRequest -> Delivery, elapsed: Provider -> int)
    requires BranchRequest(p, reqBody, prompt).Failure?
    ensures Branch(p, reqBody, prompt, fetch, elapsed) == Failed(MissingApiKey, elapsed(p))
  {
  }

  /** A branch whose request is still unanswered at the deadline reports
      "<Label> timed out after <ms> ms" with the 60000 ms deadline
      (`DeadlineText` spells the number out). */
  lemma OverdueOutcome(p: Provider, reqBody: Json, prompt: string,
                       fetch: HttpRequest -> Delivery, elapsed: Provider -> int)
    requires BranchRequest(p, reqBody, prompt).Success?
    requires fetch(BranchRequest(p, reqBody, prompt).value) == Overdue
    ensures Branch(p, reqBody, prompt, fetch, elapsed) == Failed(TimeoutMessage(Label(p), DeadlineMs), elapsed(p))
  {
    assert Adapter(p, reqBody, prompt, fetch) == StillPending;
  }

  lemma DeadlineText()
    ensures IntToString(DeadlineMs) == "60000"
  {
  }

  /** DeepSeek's request names the caller's model when that is truthy and
      `deepseek-chat` otherwise, never the adapter default `gpt-4o-mini`
      unless the caller asked for it. */
  lemma DeepSeekModel(reqBody: Json, prompt: string)
    requires BranchRequest(DeepSeek, reqBody, prompt).Success?
    ensures var m := Field(reqBody, "deepseekModel");
      BranchRequest(DeepSeek, reqBody, prompt).value.body.model
        == if Truthy(m) then m else Str(DeepSeekDefaultModel)
    ensures BranchRequest(DeepSeek, reqBody, prompt).value.body.model == Str(DefaultChatModel)
        ==> Field(reqBody, "deepseekModel") == Str(DefaultChatModel)
  {
  }

  /** Each branch posts to its own provider: OpenAI and DeepSeek to their
      chat-completion endpoints, Gemini with the key as its only query
      parameter. */
  lemma BranchEndpoints(reqBody: Json, prompt: string)
    ensures BranchRequest(OpenAI, reqBody, prompt).Success? ==>
      BranchRequest(OpenAI, reqBody, prompt).value.url == OpenAIBaseURL + ChatCompletionsPath
    ensures BranchRequest(DeepSeek, reqBody, prompt).Success? ==>
      BranchRequest(DeepSeek, reqBody, prompt).value.url == DeepSeekBaseURL + ChatCompletionsPath
    ensures BranchRequest(Gemini, reqBody, prompt).Success? ==>
      && BranchRequest(Gemini, reqBody, prompt).value.url
           == GeminiUrl(Or(Field(reqBody, "geminiModel"), Str(DefaultGeminiModel)), Field(reqBody, "geminiKey").s)
      && GeminiModelsBase <= BranchRequest(Gemini, reqBody, prompt).value.url
      && AfterFirst(BranchRequest(Gemini, reqBody, prompt).value.url, '?')
        == "key=" + EncodeURIComponent(Field(reqBody, "geminiKey").s)
  {
  }
}
