# Chat endpoint request decision, modelled in Dafny

This project models the serverless chat endpoint of the chatbot website: the
`handler` exported from `api/chat.js`. For each request the handler does five things:

1. It dispatches on the HTTP method. `OPTIONS` is a CORS preflight, anything but `POST` is refused.
2. It checks the `message` field of the body.
3. It resolves the OpenRouter API key. The candidates, in priority order, are
   `OPENROUTER_API_KEY`, `NEXT_PUBLIC_OPENROUTER_API_KEY`, the `x-openrouter-key`
   header and the body's `apiKey`. The handler takes the first truthy one, trims it,
   and logs which source supplied it.
4. It picks the `HTTP-Referer` value and builds the single chat-completion request.
5. It maps what the upstream did to a fixed `200 {reply}` answer.

The handler is modelled as one pure function, `ChatHandler.Handle`. Its inputs are:

- a request snapshot: method, lower-cased headers, and the parsed body or a body whose reading throws;
- the environment variables it reads, passed in as `Env`;
- what the upstream call does if it is made (`Upstream`): it throws, or a response arrives
  with its `ok` flag and the result of `JSON.parse` on its text.

Its result is an `Outcome`: the HTTP response (status, headers, body), the upstream
request that is issued (if any), and the key-source tag that is logged (if the handler
gets that far).

JavaScript semantics are modelled where they change a branch:

- truthiness (`||`, `!`, the conditional operator);
- optional chaining over JSON values, including a string `choices` or a `{"0": …}` object;
- `String.prototype.trim` with the ECMAScript whitespace set;
- the `ToString` conversion in `` `Bearer ${apiKey}` `` for a body `apiKey` that is not a string.
  A number prints as decimal. An array joins its elements. An object prints as
  `[object Object]`, but it throws when the object has its own `toString` key.
- the `TypeError` of `content?.trim()` when `content` is neither nullish nor a string.

Modules:

- `Options`: the optional value.
- `JsText`: `trim` and decimal rendering.
- `JsValues`: JavaScript values, truthiness, property reads and `ToString`.
- `ChatHandler`: the handler.
- `ChatProperties`: lemmas about the handler.

Behaviours of the code worth noting:

- Key resolution picks the first *truthy* raw candidate and trims it only
  afterwards. A whitespace-only variable therefore shadows later usable keys and
  leads to the no-key reply (`WhitespaceKeyShadowsLaterSources`); candidates are
  not trimmed one by one before the choice.
- A network failure (a rejected `fetch` or `response.text()`) is not treated apart
  from other exceptions: it reaches the single `catch` and gets the generic "Oops"
  reply (`ThrownUpstreamApologises`), not the "trouble connecting" reply, which is
  kept for responses that are not ok.
- The code has no retry or backoff, no message truncation, no echo stripping, only
  one response shape (`choices[0].message.content`), and no 500 answer.

## Model

| member | source | states |
|---|---|---|
| `JsText.Trim` | api/chat.js:32 | `trim` gives an infix of its input with a whitespace-only prefix and suffix around it and no whitespace at either end; it is empty exactly when the input is all whitespace |
| `JsText.TrimOfPadded` | api/chat.js:91 | `trim` is the unique such infix: any trimmed string surrounded by whitespace trims back to itself |
| `JsText.TrimIdempotent` | api/chat.js:32 | trimming an already trimmed key or reply changes nothing |
| `JsText.NatToDecimal` | api/chat.js:60 | a number prints as a non-empty string of digits that starts with '0' only for zero |
| `JsText.DecimalRoundTrip` | api/chat.js:60 | reading back the printed digits of a natural number gives that number |
| `JsText.IntToDecimalRoundTrip` | api/chat.js:60 | a numeric key prints as its sign followed by digits whose value is its magnitude |
| `JsValues.Or` | api/chat.js:25-29 | JavaScript's `or` operator is truthy exactly when one operand is, and is `a` when `a` is truthy |
| `JsValues.Get` | api/chat.js:91 | optional property access gives `undefined` on `null`, `undefined`, booleans and numbers; index 0 of a non-empty array is its first element and of a non-empty string its first character, and every other key of an array or string gives `undefined` |
| `JsValues.ToJsString` | api/chat.js:60 | a string converts to itself, a number to its decimal rendering, and an object throws exactly when it has its own "toString" key |
| `ChatHandler.StringOrUndefined` | api/chat.js:26-28 | an environment variable or header is a string or `undefined`, and truthy exactly when it is set and non-empty |
| `ChatHandler.ValidMessage` | api/chat.js:20-22 | the message is accepted exactly when it is a string that is not whitespace only, and it is kept as sent, untrimmed |
| `ChatHandler.TrimIfString` | api/chat.js:32 | a string key becomes its trim; any other key is left unchanged |
| `ChatHandler.Referer` | api/chat.js:52-55 | the referer is the non-empty `origin` header, else the non-empty SITE_URL, else the deployment URL, and it is never empty |
| `ChatHandler.Authorization` | api/chat.js:60 | the header starts with "Bearer "; for a string key it is "Bearer " followed by the key |
| `ChatHandler.TrimCall` | api/chat.js:91 | `content?.trim()` throws exactly when the content is neither nullish nor a string, and otherwise yields `undefined` or a string |
| `ChatHandler.ReplyFromData` | api/chat.js:90-92 | a reply extracted from an ok response is never empty |
| `ChatHandler.UpstreamReply` | api/chat.js:75-99 | whatever the upstream did, the reply is a non-empty string; a thrown `fetch` or `text()` gives the "Oops" reply |
| `ChatHandler.Handle` | api/chat.js:4-101 | every answer is 200, 400 or 405; every 200 except the preflight carries a reply; a request goes upstream only for a POST, after the key source was logged |
| `ChatProperties.OrChainFirstTruthy` | api/chat.js:25-29 | the chain of `or` operators yields the first truthy candidate, or the last candidate when none is truthy |
| `ChatProperties.KeySourceNamesKeyOrigin` | api/chat.js:25-40 | the key is the first truthy candidate, trimmed; the logged source is "none" exactly when that key is falsy, and otherwise names the candidate the key came from |
| `ChatProperties.WhitespaceKeyShadowsLaterSources` | api/chat.js:25-32 | a whitespace-only string that is the first truthy candidate leaves the handler keyless, with source "none", whatever the later candidates hold |
| `ChatProperties.KeySourceIgnoresKeyText` | api/chat.js:34-42 | the logged source tag depends only on which candidates are truthy and on whether the trimmed key is empty, never on the key's characters otherwise |
| `ChatProperties.SecondaryKeyChosen` | api/chat.js:25-40 | with candidates "", "k2", "k3", nothing: the key is "k2" and the source is the public variable |
| `ChatProperties.EmptyPrimaryUsesPublicKey` | api/chat.js:25-60 | an unset or empty primary variable is skipped; a trimmed public key is sent as "Bearer " + key and logged as the public variable, whose log line is "env:NEXT_PUBLIC_OPENROUTER_API_KEY" |
| `ChatProperties.PaddedPrimaryKeyIsTrimmed` | api/chat.js:25-60 | a primary key surrounded by whitespace is sent as "Bearer " + the key without its padding, and logged as "env:OPENROUTER_API_KEY" |
| `ChatProperties.HeaderKeyBeatsBodyKey` | api/chat.js:25-60 | with neither environment variable set, the `x-openrouter-key` header outranks the body's `apiKey`: the header key is sent as "Bearer " + key and logged as "header:x-openrouter-key", whatever the body holds |
| `ChatProperties.BodyKeyUsedLast` | api/chat.js:25-60 | with both environment variables and the header unset or empty, a JSON object body's string `apiKey` is sent as "Bearer " + key and logged as "body.apiKey" |
| `ChatProperties.SelectedKeySent` | api/chat.js:25-60 | whichever candidate is the first truthy one, when it is an already trimmed string it becomes the bearer token and its position in the priority order is the source logged |
| `ChatProperties.BlankPrimaryKeyExample` | api/chat.js:25-50 | a primary variable of one space beats public key "k2" and header "k3" and gives the no-key reply |
| `ChatProperties.OptionsAnsweredFirst` | api/chat.js:6-11 | OPTIONS is answered 200 with the three CORS headers and no body, whatever the body, environment or upstream |
| `ChatProperties.OtherMethodsRefused` | api/chat.js:13-15 | any method other than OPTIONS and POST gets 405 "Method not allowed" |
| `ChatProperties.MissingMessageRefused` | api/chat.js:18-22 | a POST without a usable message gets 400 "Missing message", with no key lookup and no upstream call |
| `ChatProperties.EmptyBodyExample` | api/chat.js:18-22 | `POST {}` gets 400 "Missing message" |
| `ChatProperties.UnreadableBodyApologises` | api/chat.js:17-99 | a body whose reading throws is caught and answered 200 with the "Oops" reply |
| `ChatProperties.NoKeyNoUpstream` | api/chat.js:45-50 | with a usable message and no usable key the answer is 200 with the no-key reply, the source is "none" and nothing is sent |
| `ChatProperties.UpstreamRequestSent` | api/chat.js:52-73 | with a usable message and key, one request goes to the chat-completion URL; it carries "Bearer " + key text (from which the token reads back), JSON content type, the app title, the chosen referer, the model, 180 tokens, and the system prompt followed by the untrimmed message |
| `ChatProperties.UnprintableKeyApologises` | api/chat.js:34-99 | a key whose conversion to text throws ends in the "Oops" reply with nothing sent, after the key's source was logged |
| `ChatProperties.UpstreamCalledExactlyWhen` | api/chat.js:17-73 | the upstream is called if and only if the request is a POST with a readable body, a usable message and a usable, printable key |
| `ChatProperties.PostAlwaysReplies` | api/chat.js:17-100 | every POST that passes the message check, or whose body cannot be read, is answered 200 with a non-empty reply |
| `ChatProperties.StatusClassifiesRequest` | api/chat.js:13-22 | the answer is 405 exactly for other methods and 400 exactly for a POST with a readable body and no usable message |
| `ChatProperties.ThrownUpstreamApologises` | api/chat.js:95-99 | a rejected `fetch` or `response.text()` is caught and gives the "Oops" reply |
| `ChatProperties.NotOkIgnoresBody` | api/chat.js:83-88 | a response that is not ok gives the "trouble connecting" reply, whatever its body |
| `ChatProperties.OkReplyFromContent` | api/chat.js:75-94 | for an ok response the reply is the trimmed content when it has non-whitespace text; the fallback when the content is absent, null or blank, or the body is not JSON; the "Oops" reply when the content is another value |
| `ChatProperties.ChatCompletionReply` | api/chat.js:90-92 | `{choices:[{message:{content}}]}` gives its content trimmed |
| `ChatProperties.ChatCompletionReplyExample` | api/chat.js:90-92 | content " hi there " gives the reply "hi there" |

## Left out

- Network I/O: the `fetch` call and `response.text()` are replaced by the `Upstream` input. A rejection of either is `Threw`.
- `JSON.parse`: replaced by its result, `Option<JsValue>`.
- Logging: `console.log`/`console.error` (api/chat.js:42-43, 46, 84, 96) are not modelled. The one exception is the key-source tag of line 42, which the model returns as `keySourceLog`.
- `VERCEL` and `VERCEL_ENV`: the handler reads them only to log them, so they are not modelled.
- `process.env`: replaced by the explicit `Env` parameter.
- `res.setHeader`, `res.status`, `res.json` and `res.end`: modelled as the returned `Response` value. The `Content-Type` that `res.json` adds is not modelled.
- `export const config`, `async`/`await` and concurrency: these carry no decision logic.
- Numbers are integers. Fractional numbers, exponent notation and the precision limit of JavaScript numbers are not represented.
- Strings are sequences of Unicode scalar values, not UTF-16 code units. Index 0 of a string whose first character lies outside the Basic Multilingual Plane is therefore the whole character, not a lone surrogate.
- `JsValues.Get`: reads only the keys the handler uses ("choices", "0", "message", "content", "apiKey"). None of them is an inherited property. Its contract does not state the value of an object's own property; `ChatCompletionReply` states it for the chat-completion shape.
- `JsValues.ToJsString`: its contract states the result for strings and numbers. For an object it states only whether the conversion throws (exactly when the object has its own "toString"), not that an object without one gives "[object Object]". Booleans, arrays, `null` and `undefined` are defined in its body but not stated in the contract.
- Header values are single strings, as Node delivers custom headers; duplicate headers are joined.
- Absent from `api/chat.js` and so not modelled: retry and backoff, message truncation, echo-prefix stripping, response shapes other than chat completion, and a 500 answer for a malformed request.
