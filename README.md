# DIAL chat-completion clients, modelled in Dafny

The repository is a small exercise client for a DIAL chat-completion service. It has two
interchangeable `DialClient` classes, and each turns a conversation history into one assistant
`Message`:

- The raw-HTTP client (`task/clients/custom_client.py`) builds the URL, headers and JSON body
  itself. For a whole reply, it decides the result from the status code and the parsed body. For a
  streamed reply, it decodes the server-sent-event body line by line: it strips each line, keeps the
  `data: ` lines, recognises the `[DONE]` sentinel, parses each payload as JSON, takes
  `choices[0].delta.content`, prints each snippet and joins them.
- The managed client (`task/clients/client.py`) hands the same history to the DIAL SDK. It then
  picks the first choice's message, or filters and joins the streamed chunks' delta contents.

The model is split into eight modules:

| module | file | what it holds |
|---|---|---|
| `Outcomes` | `outcomes.dfy` | `Option`, `Result`, and the Python exceptions the code can raise (`Exc`) |
| `Json` | `json.dfy` | decoded JSON values, Python truthiness, `dict.get`, `x[0]` |
| `Text` | `text.dfy` | `str.strip` over Python's whitespace set, `startswith`, `''.join`, `str(int)` |
| `Chat` | `chat.dfy` | `Role`, `Message`, and `to_dict()` with its inverse |
| `RawClient` | `raw_client.dfy` | the raw-HTTP client: requests, the event-line decoder, and a class whose `StreamCompletion` keeps the source's loop |
| `ManagedClient` | `managed_client.dfy` | the SDK client: chunk and completion records with optional fields, the filter-and-join loop, choice selection |
| `Agreement` | `agreement.dfy` | what the two clients return for equivalent inputs, and where they differ |
| `Scenarios` | `scenarios.dfy` | concrete exchanges (a simple stream, `[DONE]` in the middle, an abrupt close, a malformed payload, an HTTP failure) |

Foreign calls are function-typed parameters:

- `parse: string -> Option<Json>` stands for `json.loads` and `response.json()`. `None` means the
  text is not JSON.
- `post` stands for `requests.post` and `open` for `session.post`.
- `create` and `createStream` stand for the SDK's `chat.completions.create`.

The model never defines a JSON parser. Python exceptions are the `Err` side of `Result`.

The raw client's streaming loop is a `method` with a `while` loop over the body lines. Its
invariant `DecodedUpTo` ties the collected snippets and the printed trace to the functions
`StreamOutcome` and `StreamEcho`, and the properties are proved about those functions. The managed
client's loop is a `method` proved against `Pieces`.

## Behaviour kept as written

- `[DONE]` does not stop the reading: line 92 of `custom_client.py` only prints a newline, and the
  lines after it are still decoded (`Scenarios.EventAfterDone`).
- A streamed call whose status is not 200 does not raise: lines 93-96 print the status and the body
  and return an empty assistant message (`RawClient.StreamOutcome`).
- A payload that is not JSON makes the streamed call raise the `json.loads` error, and the snippets
  decoded before it are discarded (`RawClient.StreamOutcomeMalformed`).
- A `null` content in an event payload becomes a `None` snippet, and `''.join` then raises
  `TypeError` (`RawClient.StreamOutcomeNonString`).
- For a whole reply whose first choice has no message, the raw client returns a message whose content
  is `None`, while the managed client raises (`Agreement.CompletionAgreement`).
- The raw client prints a newline for every `[DONE]` line and none at the end of the stream. The
  managed client prints exactly one newline, after the last piece (`RawClient.OtherStep`,
  `ManagedClient.DialClient.StreamCompletion`).

## Model

| member | source | states |
|---|---|---|
| Json.Truthy | task/clients/custom_client.py:44 | `if choices:` is false exactly for `None`, `False`, zero, `''`, `[]` and `{}` |
| Json.Get | task/clients/custom_client.py:43-45 | `d.get(key, default)` succeeds exactly on a dict; it gives the stored value or the default, and raises AttributeError on anything else |
| Json.First | task/clients/custom_client.py:45 | `x[0]` succeeds exactly on a non-empty list or string and gives its first item or character |
| Text.TrimStartSplits | task/clients/custom_client.py:84 | `lstrip` splits its input into a whitespace prefix and the result |
| Text.TrimEndSplits | task/clients/custom_client.py:84 | `rstrip` splits its input into the result and a whitespace suffix |
| Text.Strip | task/clients/custom_client.py:84-86 | `strip` never returns text that starts or ends with whitespace, and never lengthens |
| Text.StripPadded | task/clients/custom_client.py:84-86 | `strip` removes exactly the surrounding whitespace: any trimmed text padded with whitespace strips back to itself |
| Text.StripIdempotent | task/clients/custom_client.py:86 | stripping the payload a second time changes nothing |
| Text.Concat | task/clients/custom_client.py:96 | `''.join` gives `''` exactly when every part is `''` |
| Text.ConcatAppend | task/clients/custom_client.py:96 | `''.join` of two lists concatenated is the two joins concatenated |
| Text.ConcatNonEmpty | task/clients/custom_client.py:96 | empty strings contribute nothing to `''.join` |
| Text.IntToDecimal | task/clients/custom_client.py:50 | `str(status)` starts with `-` exactly for a negative status, and is otherwise decimal digits |
| Text.NatToDecimal | task/clients/custom_client.py:50 | `str(n)` for n >= 0 is non-empty decimal digits without a leading zero |
| Text.NonNegativeDecimalValue | task/clients/custom_client.py:50 | the status text `str(n)` reads back as n for n >= 0 |
| Text.NegativeDecimalValue | task/clients/custom_client.py:50 | for n < 0, `str(n)` is a minus sign followed by digits that read back as -n |
| Chat.ToDict | task/clients/custom_client.py:29 | `msg.to_dict()` reads back as the same message |
| Chat.ToDicts | task/clients/custom_client.py:29 | the list comprehension keeps the length and reads back as the same history, in order |
| Chat.ToDictsAt | task/clients/custom_client.py:29 | the i-th wire entry is the mapping of the i-th message |
| RawClient.Endpoint | task/clients/custom_client.py:17 | the endpoint URL names exactly the deployment it was built for: `DeploymentOf` recovers it |
| RawClient.DialClient.constructor | task/clients/custom_client.py:15-17 | the client's endpoint is the deployment's chat-completions URL under the base URL |
| RawClient.DialClient.Headers | task/clients/custom_client.py:21-24 | exactly the headers `api-key` (the client's key) and `Content-Type: application/json` |
| RawClient.DialClient.CompletionRequest | task/clients/custom_client.py:28-30 | the request goes to the endpoint with those headers; its body has only "messages", which reads back as the history |
| RawClient.DialClient.StreamRequest | task/clients/custom_client.py:63-66 | the same, with exactly "stream" set to true beside "messages" |
| RawClient.ReplyFromBody | task/clients/custom_client.py:42-48 | a missing or falsy `choices` raises ValueError with the source's message; a first choice that is a dict gives an assistant message with its `message.content` (None when absent); other shapes raise |
| RawClient.CompletionOutcome | task/clients/custom_client.py:41-50 | a status other than 200 raises `HTTP {status}: {body}`; a 200 body that is not JSON raises its decode error; otherwise the result is `ReplyFromBody` of the parsed body |
| RawClient.DialClient.GetCompletion | task/clients/custom_client.py:19-50 | for the response `post` returns to `CompletionRequest`: the same three cases, and any reply has role AI |
| RawClient.Classify | task/clients/custom_client.py:84-87 | a line is skipped exactly when its stripped text does not start with `data: `; a payload is trimmed and never `[DONE]` |
| RawClient.ClassifyEvent | task/clients/custom_client.py:84-87 | `data: ` plus a payload, padded with any whitespace, decodes to that payload, or to the sentinel for `[DONE]` |
| RawClient.ClassifyBlank | task/clients/custom_client.py:84-85 | blank keep-alive lines are skipped |
| RawClient.ClassifyBareData | task/clients/custom_client.py:84-85 | a bare `data:` line, however padded, is skipped |
| RawClient.ClassifyUnspaced | task/clients/custom_client.py:85 | `data:{...}` without the space is skipped |
| RawClient.Snippet | task/clients/custom_client.py:104-107 | a payload that is not a dict raises AttributeError; every failure is AttributeError, TypeError, KeyError or IndexError |
| RawClient.SnippetCases | task/clients/custom_client.py:104-107 | no or falsy `choices` gives `''`; a first choice that is a dict gives its delta's `content`, `''` when content or delta is missing; a delta that is not a dict, or a truthy non-list `choices`, raises |
| RawClient.SnippetFirstChoiceOnly | task/clients/custom_client.py:105 | choices after the first never change the snippet |
| RawClient.ContentSnippet | task/clients/custom_client.py:103-107 | a payload that is not JSON raises its decode error; otherwise the snippet of the parsed value |
| RawClient.LinePayload | task/clients/custom_client.py:84-87 | one line gives at most one payload |
| RawClient.Payloads | task/clients/custom_client.py:83-87 | no more payloads than lines |
| RawClient.PayloadsAreEventText | task/clients/custom_client.py:84-87 | every payload is trimmed text other than `[DONE]` |
| RawClient.PayloadsAppend | task/clients/custom_client.py:83-87 | the payloads of two runs of lines are the payloads of each, in order |
| RawClient.PayloadsIgnore | task/clients/custom_client.py:85-92 | a skipped or `[DONE]` line anywhere can be removed without changing the payloads: decoding continues after it |
| RawClient.Snippets | task/clients/custom_client.py:88-90 | on success, one snippet per payload, position by position; on failure, the exception of the first payload that raises, all before it succeeding |
| RawClient.JoinSnippets | task/clients/custom_client.py:96 | `''.join` succeeds exactly when every snippet is a str, and otherwise raises TypeError |
| RawClient.JoinStrings | task/clients/custom_client.py:96 | str snippets join to their in-order concatenation |
| RawClient.LineEchoMatchesPayload | task/clients/custom_client.py:87-92 | a line without a payload prints no snippet; a line with one prints exactly that payload's snippet, or raises what it raises |
| RawClient.EchoShowsSnippets | task/clients/custom_client.py:88-90 | what is printed, in order, is exactly what is collected |
| RawClient.LinesEchoNoStatus | task/clients/custom_client.py:89-92 | decoding the lines prints only snippets and newlines |
| RawClient.StreamEcho | task/clients/custom_client.py:82-95 | a status other than 200 prints only the status and body line; with 200 no status line is printed, and `EchoShowsSnippets` gives the snippets shown |
| RawClient.StreamOutcome | task/clients/custom_client.py:82-96 | a status other than 200 gives an empty assistant message without decoding; any reply has role AI and str content; with 200 the call succeeds exactly when every payload yields a snippet and every snippet is a str |
| RawClient.StreamOutcomeConcatenates | task/clients/custom_client.py:82-96 | with status 200 and str snippets, the reply's content is the snippets of all `data:` payloads other than `[DONE]`, concatenated in arrival order |
| RawClient.StreamOutcomeMalformed | task/clients/custom_client.py:88-90 | the first payload that is not JSON makes the call raise its decode error, and no message is returned |
| RawClient.StreamOutcomeNonString | task/clients/custom_client.py:96 | a snippet that is not a str (a `null` content) makes the call raise TypeError |
| RawClient.DataStep | task/clients/custom_client.py:87-90 | one payload line either ends the decoding with its snippet's exception, or appends and prints the snippet |
| RawClient.OtherStep | task/clients/custom_client.py:85-92 | a skipped line collects nothing; a `[DONE]` line collects nothing and prints a newline; the loop continues either way |
| RawClient.DialClient.StreamCompletion | task/clients/custom_client.py:53-96 | the loop returns `StreamOutcome` and prints `StreamEcho` of the response `open` gives for `StreamRequest` |
| ManagedClient.Piece | task/clients/client.py:56-58 | a chunk's piece is non-empty and is the content of the delta of its first choice |
| ManagedClient.Pieces | task/clients/client.py:55-60 | at most one piece per chunk, and no piece is empty |
| ManagedClient.PiecesAppend | task/clients/client.py:55 | the pieces of two runs of chunks are the pieces of each, in order |
| ManagedClient.PiecesAreKeptChunks | task/clients/client.py:55-60 | the pieces are, position by position, the contents of exactly those chunks with a non-empty `choices`, a delta and a non-empty content, in arrival order, each once |
| ManagedClient.PiecesIgnore | task/clients/client.py:56-58 | a chunk that contributes nothing can be removed anywhere without changing the result |
| ManagedClient.PieceFirstChoiceOnly | task/clients/client.py:57 | choices after the first never change a chunk's piece |
| ManagedClient.PieceAbsent | task/clients/client.py:56-58 | chunks without choices, with an empty choice list, without a delta, or with absent or empty content contribute nothing |
| ManagedClient.ContentValue | task/clients/client.py:37 | the message content is the SDK's string, or None exactly when the SDK has none |
| ManagedClient.Choose | task/clients/client.py:34-40 | succeeds exactly when `choices` is non-empty and the first choice carries a message, with an assistant message of its content; otherwise raises "No choices in response found" |
| ManagedClient.ChooseFirstChoiceOnly | task/clients/client.py:35 | choices after the first never change the result |
| ManagedClient.DialClient.constructor | task/clients/client.py:11-12 | the client keeps the deployment name it was created for |
| ManagedClient.DialClient.CompletionArgs | task/clients/client.py:27-31 | this deployment, `stream=False`, and the history as dictionaries that read back as the history, in order |
| ManagedClient.DialClient.StreamArgs | task/clients/client.py:45-49 | the same deployment and history with `stream=True` |
| ManagedClient.DialClient.GetCompletion | task/clients/client.py:24-40 | for the completion `create` returns: succeeds exactly when `choices` is non-empty and the first choice has a message, with role AI and that message's content (None when it has none); otherwise raises "No choices in response found" |
| ManagedClient.DialClient.StreamCompletion | task/clients/client.py:42-63 | the reply is an assistant message joining the pieces in order; what is written is the pieces followed by one newline; an empty stream gives empty content |
| Agreement.SnippetOfCarried | task/clients/custom_client.py:104-106 | for any event object that carries an SDK chunk, whatever other keys it has (`id`, `index`, `role`, ...), the raw decoder's snippet is the managed client's piece, or `''` where the managed client takes nothing |
| Agreement.RolePreambleCarries | task/clients/custom_client.py:104-106 | the role-only opening event `{"choices": [{"index": 0, "delta": {"role": "assistant"}}]}` carries the chunk whose delta has no content |
| Agreement.NonEmptySnippetTexts | task/clients/client.py:58 | dropping the empty snippets leaves exactly the managed client's pieces |
| Agreement.StreamAgreement | task/clients/custom_client.py:82-96 | when each event's parsed JSON carries the SDK's chunk at that position (extra keys allowed), the raw reply with status 200 equals the managed client's reply (task/clients/client.py:55-63), whatever skipped or `[DONE]` lines are interleaved |
| Agreement.StreamEchoAgreement | task/clients/custom_client.py:89 | for events that carry the SDK's chunks, the raw client prints one snippet per chunk, the managed client's piece or `''`; with the empty ones dropped, they are what the managed client writes before its newline |
| Agreement.CompletionAgreement | task/clients/custom_client.py:41-48 | for any 200 body that carries the SDK's completion, extra keys allowed: when the managed client (task/clients/client.py:34-40) returns a message, the raw client returns the same one; with missing, null or empty `choices` both raise; with a first choice lacking a message the managed client raises, while the raw client returns content None (no `message` key) or raises AttributeError (`"message": null`) |
| Agreement.RequestAgreement | task/clients/custom_client.py:28-30 | both clients send the same history in the same dictionary form; only the streaming requests ask for a stream |
| Scenarios.EventPayloads | task/clients/custom_client.py:84-87 | a run of `data: p` lines decodes to its payloads with the `[DONE]` ones removed |
| Scenarios.SimpleStream | task/clients/custom_client.py:82-96 | "Hel", "lo" and `[DONE]` give `Message(AI, "Hello")` |
| Scenarios.NoOpChunk | task/clients/custom_client.py:104-107 | an event whose delta has no content contributes `''`: "Hel", none, "lo" still give "Hello" |
| Scenarios.EventAfterDone | task/clients/custom_client.py:87-92 | an event after `[DONE]` is still collected: "Hel", `[DONE]`, "lo" give "Hello" |
| Scenarios.AbruptClose | task/clients/custom_client.py:83-96 | a stream that ends without `[DONE]` returns what it carried: "Hi" |
| Scenarios.MalformedPayload | task/clients/custom_client.py:103 | `data: not-json` before `[DONE]` raises its decode error and returns no message |
| Scenarios.EmptyChoices | task/clients/custom_client.py:43-48 | a 200 body `{"choices": []}` raises ValueError in the raw client and the managed client raises too |
| Scenarios.HttpFailure | task/clients/custom_client.py:50 | status 500 with body "server error" raises "HTTP 500: server error" |
| Scenarios.ManagedSimpleStream | task/clients/client.py:55-63 | a role-only chunk, "Hel" and "lo" join to "Hello" |

## Left out

- Network transport (`requests.post`, the `aiohttp` session, the `Dial` and `AsyncDial` SDK clients): these are foreign I/O, so the request goes to a function parameter and the response or chunk sequence comes back from it. Transport errors and the SDK's own parsing are not modelled.
- `async`/`await` and `async for`: the suspension points carry no logic, so a stream is a finite sequence processed in order.
- The JSON grammar: `json.loads` and `response.json()` are the parameter `parse`. A decode error carries the document text rather than Python's position details.
- UTF-8 decoding of the body lines (`line.decode('utf-8')`): the lines come already decoded, and a `UnicodeDecodeError` is not modelled.
- How `aiohttp` splits the body into lines: the model takes the lines as given. Any line terminator they keep is whitespace that `strip` removes.
- The `print(content)` / `print(message.content)` of the non-streaming calls (custom_client.py line 46, client.py line 36): console output with no effect on the result. The streaming prints are modelled as the traces `Echo` and `written`.
- RawClient.DialClient.constructor: as written, `super().__init__(deployment_name)` on a class without a base raises TypeError (custom_client.py line 16), and `_api_key` is never assigned, so building the headers would raise AttributeError. The model takes the base URL and the API key as constructor parameters, so that the rest of the client can be modelled.
- `DIAL_ENDPOINT`: task/constants.py is not part of this model, so the base URL is a constructor parameter.
- `BaseClient`: task/clients/base.py is not part of this model. ManagedClient.DialClient.constructor only keeps the deployment name. The API key and the construction of the SDK clients (client.py lines 14-22) are left out.
- Role strings and `to_dict()`: task/models/role.py and task/models/message.py are not part of this model. Roles are assumed to be "system", "user" and "assistant", and `to_dict()` is assumed to give `{"role": ..., "content": ...}`.
- task/app.py: the interactive `input()` loop and the conversation bookkeeping are console I/O around the clients.
- Scenarios.SimpleStream, Scenarios.NoOpChunk, Scenarios.EventAfterDone, Scenarios.AbruptClose, Scenarios.MalformedPayload: an event payload is any text of the shape `{…}` that `parse` maps to the stated object, not one literal JSON text, because the JSON parser is not modelled.
- ManagedClient.Piece: the SDK's `delta.content` is modelled as an optional string, as the SDK types it. A content of another type is not modelled.
- Agreement.StreamAgreement, Agreement.StreamEchoAgreement: an event whose delta has `"content": null`, or whose choice has `"delta": null`, carries no SDK chunk, so the streaming agreement does not cover it. The two clients differ there: the raw client collects `None` and its join raises TypeError (`RawClient.StreamOutcomeNonString`), or `None.get` raises AttributeError, while the SDK reads the value as absent.
