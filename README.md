# tri-provider-playground: the compare fan-out, modelled in Dafny

The server takes one prompt and asks three text-generation providers for an
answer: OpenAI and DeepSeek via the OpenAI-compatible chat-completion
protocol, and Google Gemini via its generate-content protocol. Each
provider call has its own 60-second deadline. Every call, whether it
succeeds, fails or times out, becomes one outcome record. The three records
come back together under the keys `openai`, `deepseek` and `gemini`.

The model covers the decision logic of `server.js`. The network, the clock
and the HTTP framework are inputs or are left out.

- `JsValues` (`js_values.dfy`): JSON values plus `undefined`; JavaScript
  truthiness; `||`, `??`, `?.key` and `?.[0]`; last-wins lookup of
  repeated keys.
- `JsText` (`js_text.dfy`): `trim()` with ECMAScript's whitespace set;
  integers as decimal text, with a parser that reads them back; `String(v)`;
  `Array.prototype.join`; `encodeURIComponent` (UTF-8 percent-encoding).
- `Async` (`async.dfy`): promise settlement as values, and `withTimeout`.
  Whether a call settled before its timer fired is an input.
- `Adapters` (`adapters.dfy`): the key check `ok`; the requests
  `callOpenAICompatible` and `callGemini` build; how each one turns
  `(status, parsed body)` into `{text, usage}` or an error message.
  `fetch` is a parameter of type `HttpRequest -> Delivery`: a response, a
  transport failure, or no answer before the deadline (`Overdue`).
- `Compare` (`compare.dfy`): the `POST /api/compare` handler. It checks the
  prompt, builds each branch's outcome record and puts the three records in
  the response. Each branch's elapsed milliseconds are a parameter.

Behaviour of the code that the model keeps as written:

- A 2xx reply whose body is not JSON succeeds, with text `""` and usage
  `null`. Only a non-2xx reply reports "Non-JSON response (<status>)".
- The OpenAI-compatible `text` is whatever `choices[0].message.content`
  holds when it is not null or undefined, so it is not always a string.
  The Gemini text is always a string.
- A Gemini `parts` array with a `null` element fails the branch with the
  engine's `TypeError` message. So does a `parts` value that is neither
  nullish nor an array.
- `ms` is `Date.now() - started`. Nothing makes it non-negative, so the
  model takes any integer.

## Model

| member | source | states |
|---|---|---|
| `JsText.TrimNonEmptyIffNotBlank` | server.js:12 | `s.trim().length > 0` holds exactly when `s` has a character outside ECMAScript's whitespace set |
| `Adapters.Ok` | server.js:12 | `ok(x)` holds only for a non-empty string; `OkIffNonBlank` gives the exact set |
| `Adapters.OkIffNonBlank` | server.js:12 | `ok(x)` holds iff `x` is a string with a non-whitespace character; `undefined`, `null`, non-strings, `""` and blank strings fail |
| `Async.WithTimeout` | server.js:13-16 | an operation that settled before the deadline keeps its own result; one still pending is rejected with "<name> timed out after <ms> ms" |
| `Async.TimeoutMessageNamesDeadline` | server.js:14 | for one label, different deadlines give different timeout messages |
| `Adapters.BuildChatRequest` | server.js:19-35 | fails with "Missing API key" exactly when `ok(apiKey)` fails; otherwise the URL is `baseURL + "/v1/chat/completions"`, there is one user message holding the prompt, `stream` is false, the temperature is 0.7, the model is the given one if truthy else `gpt-4o-mini`, and the key is sent as a Bearer token |
| `Adapters.ChatMissingKeyNeedsNoNetwork` | server.js:19-20 | with a key failing `ok`, the chat adapter rejects with "Missing API key" for every network behaviour |
| `Adapters.BuildGeminiRequest` | server.js:44-56 | fails with "Missing API key" exactly when `ok(apiKey)` fails; otherwise the URL is the Gemini URL for the given model if truthy, else `gemini-1.5-flash`, on the generative-language host; its query is `key=` plus the encoded key; no Authorization header is sent, and the body is one user content whose single part is the prompt, at temperature 0.7 |
| `Adapters.GeminiMissingKeyNeedsNoNetwork` | server.js:44-45 | with a key failing `ok`, the Gemini adapter rejects with "Missing API key" for every network behaviour |
| `Adapters.GeminiUrl` | server.js:47 | the URL starts with `https://generativelanguage.googleapis.com/v1beta/models/`; `GeminiUrlQueryIsKey` states its query |
| `Adapters.GeminiUrlQueryIsKey` | server.js:47 | the text after the URL's first `?` is exactly `key=` plus the encoded key; the encoded key holds no `&` or `#`, and the encoded model holds no `?`, `#` or `/`: neither model nor key can add a parameter, a fragment or a path segment |
| `Adapters.GeminiQueryAfterModel` | server.js:47 | for any model text without `?`, the URL's text after the first `?` is `key=` followed by the key text |
| `Adapters.GeminiDefaultModelUrl` | server.js:46-47 | without a truthy model the Gemini request's URL is the models base, `gemini-1.5-flash` unchanged, `:generateContent?key=` and the encoded key |
| `JsText.EncodedIsUriSafe` | server.js:47 | every character `encodeURIComponent` outputs is unreserved or `%` |
| `JsText.EncodeUnreservedIsIdentity` | server.js:47 | `encodeURIComponent` leaves a string of unreserved characters unchanged |
| `JsValues.LookupFindsLast` | server.js:36 | a member read from a parsed object is the last member with that key, as `JSON.parse` keeps it |
| `Adapters.BodyOrSubstitute` | server.js:36 | a parsed body is used as is; an unparsable one is replaced by an object whose `error.message` is "Non-JSON response (<status>)" |
| `Adapters.StatusErrorMessage` | server.js:37 | the error is the body's `error.message` as `String` if truthy, else "HTTP <status>" |
| `Adapters.StatusErrorMessageCases` | server.js:36-37 | on a non-2xx status an unparsable body gives "Non-JSON response (<status>)" |
| `JsText.IntToStringRoundTrip` | server.js:37 | the decimal text of a status reads back as that status, so "HTTP <status>" names the status unambiguously |
| `Adapters.NormalizeChat` | server.js:36-40 | rejects exactly on non-2xx statuses, with the status error message; on success `text` is `choices[0].message.content`, or `""` only when that is null or undefined, and `usage` is `data.usage` if truthy, else `null` |
| `Adapters.ChatTextDefaults` | server.js:38-39 | an existing `""` content is kept (nullish coalescing, not logical or); a 2xx non-JSON reply succeeds with text `""` and usage `null` |
| `JsValues.OrDiffersFromCoalesce` | server.js:38-39 | logical or and nullish coalescing (`??`) choose differently exactly on the falsy values that are not nullish |
| `Adapters.CallOpenAICompatible` | server.js:19-41 | a bad key rejects with "Missing API key"; otherwise the result follows the network's answer to the built request: normalised response, transport error message, or still pending |
| `Adapters.MapPartTexts` | server.js:59 | `parts.map(p => p.text ?? "")` succeeds iff no part is null or undefined, and then gives each part's text in order; otherwise it fails with the `TypeError` for a nullish part |
| `Adapters.GeminiText` | server.js:59 | nullish `parts` give `""`; non-nullish non-array `parts` fail with the `map is not a function` TypeError; an array fails iff some part is null or undefined, with that part's TypeError, and otherwise gives `join("")` of the parts' texts |
| `JsText.JoinEmptySepAppend` | server.js:59 | `join("")` of two runs of elements is the concatenation of their joins |
| `JsText.JoinOfStrings` | server.js:59 | `join("")` over string elements is the in-order concatenation of the strings |
| `Adapters.GeminiTextAppendsPart` | server.js:59 | the Gemini text for parts followed by one more part is the text so far followed by that part's text |
| `Adapters.GeminiTextOfStringParts` | server.js:59 | when every part has a string `text`, the Gemini text is those strings concatenated in order |
| `Adapters.NormalizeGemini` | server.js:57-61 | a non-2xx status rejects with the status error message; on a 2xx status it succeeds exactly when `GeminiText` does, with that text as a string, and otherwise rejects with `GeminiText`'s error; `usage` is `usageMetadata` if truthy, else `null` |
| `Adapters.CallGemini` | server.js:44-62 | a bad key rejects with "Missing API key"; otherwise the result follows the network's answer to the built request |
| `Compare.ToOutcome` | server.js:75 | a fulfilled adapter gives `ok: true` with its `text` and `usage`; a rejection gives `ok: false` with its message; `ms` is the elapsed time |
| `Compare.OutcomeJson` | server.js:75 | the record's `ok` is true exactly for a success; its keys are `ok, text, usage, ms` or `ok, error, ms`; `text`, `usage`, `error` and `ms` hold the outcome's values |
| `Compare.OutcomeHasTextXorError` | server.js:75 | every record has exactly one of `text` and `error`, and `text` exactly when `ok` is true |
| `Compare.Field` | server.js:66 | `(req.body || {}).name` is the object's last member `name`, and `undefined` for a body that is not an object |
| `Compare.Adapter` | server.js:72-84 | a branch whose request cannot be built rejects with "Missing API key"; otherwise it follows the network's answer to that branch's request: the Gemini or chat normalisation, the transport message, or still pending |
| `Compare.Branch` | server.js:71-75 | a branch's record carries that branch's own elapsed time |
| `Compare.MissingKeyOutcome` | server.js:71-75 | a branch whose key fails `ok` reports "Missing API key" whatever the network does; the deadline never overtakes it |
| `Compare.OverdueOutcome` | server.js:71-75 | a branch whose request is unanswered at the deadline reports "<Label> timed out after <ms> ms" with the 60000 ms deadline |
| `Compare.DeadlineText` | server.js:73 | the deadline appears in messages as "60000" |
| `Compare.DeepSeekModel` | server.js:78 | DeepSeek sends the caller's model if truthy, else `deepseek-chat`; it sends `gpt-4o-mini` only when the caller asked for it |
| `Compare.BranchEndpoints` | server.js:72-84 | OpenAI and DeepSeek post to their own base URLs plus `/v1/chat/completions`; Gemini posts to the Gemini URL for the caller's `geminiModel` (or the default) on the generative-language host, with the caller's `geminiKey` as its only query parameter |
| `Compare.BranchIsolation` | server.js:70-88 | a branch's record depends only on the network's answer to that branch's request and on its elapsed time |
| `Compare.ComparisonBody` | server.js:90-91 | the 200 body has the keys openai, deepseek, gemini in that order, each holding its provider's record |
| `Compare.HandleCompare` | server.js:65-92 | a prompt failing `ok` gives 400 with `{error: "Missing prompt"}`; otherwise 200 with the body built from the three branches' records |
| `Compare.BadPromptSkipsProviders` | server.js:67 | the 400 answer to a bad prompt is the same for every network and clock, so no adapter's outcome enters it |
| `Compare.ValidPromptAnswersEveryProvider` | server.js:90-91 | a valid prompt gets status 200 and exactly the keys `openai`, `deepseek`, `gemini` in that order |
| `Compare.ValidPromptRecord` | server.js:70-91 | under a valid prompt each provider's record is its own branch's outcome and has `text` or `error`, never both |

## Left out

- HTTP plumbing: Express setup, CORS, the 1 MB JSON body limit, static
  files, the `/health` and `/` routes, `PORT` and the start-up log line
  (server.js:2-9, 94-103).
- The transport. `fetch` is the parameter `HttpRequest -> Delivery`. The
  request's method is always POST and is not recorded. `JSON.stringify` of
  the body is not modelled: the body stays a record.
- `res.json()`: its result is an input, either a JSON value or a parse
  failure.
- Time. `setTimeout`, `Promise.race` and `Promise.allSettled` are not
  modelled as concurrency. "Settled before the 60 s timer" is the input
  `Overdue` versus any other answer. A call that loses the race keeps
  running in the real server; the model has nothing that corresponds to
  that. Elapsed milliseconds are an input.
- Numbers. JSON numbers are integers in the model, and `String(v)` prints
  them as exact decimals. In JavaScript a fractional number prints with a
  fraction, `JSON.parse` rounds integers beyond 2^53, and `String` prints
  magnitudes of 1e21 and above in exponent form ("1e+21"). So a numeric
  `error.message` (server.js:37, 58) or a numeric Gemini part `text`
  (server.js:59) of that kind reads differently in the model. The request
  temperature 0.7 is the constant 7 tenths, outside the JSON type.
- `String(v)` of an object is always "[object Object]". A parsed object
  with its own `toString` or `valueOf` member would behave differently in
  JavaScript.
- Strings are sequences of Unicode scalar values, not UTF-16 code units.
  `JSON.parse` accepts a lone surrogate such as `"\ud800"`, and a
  `geminiKey` or `geminiModel` holding one makes `encodeURIComponent` throw
  `URIError` ("URI malformed"), so `callGemini` rejects with that message
  (server.js:47). The model cannot represent such a string and does not
  have this error path.
- `v?.[0]` on a string yields its first Unicode scalar value. JavaScript
  yields one UTF-16 code unit. The difference cannot reach a result, because
  the next read on that string is `undefined` either way.
- Property reads only look at an object's own members. None of the names
  the server reads is a built-in property of strings, arrays or objects.
- The two `TypeError` messages (a nullish Gemini part, a non-array
  `parts`) use V8's wording. Other engines word them differently.
- `Undefined` can appear inside model arrays and objects, which
  `JSON.parse` never produces. This makes the model more general, not less.
