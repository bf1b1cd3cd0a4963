# Chat session of a Gemini chat app, in Dafny

This project models the conversation session of a small mobile chat app. The
session is the `useGeminiAPI` hook. It holds three pieces of state:

- `messages`, the ordered list of `{role, content}` turns;
- `isLoading`;
- `error`, an optional string.

It has one operation, `sendMessage(content)`. A call does these steps in order:

1. Clear the error.
2. Read the stored credential `gemini_api_key`. If there is none, or it is the empty string, show a fixed message and stop.
3. Append the user turn.
4. Set the loading flag.
5. POST the content to the Gemini `generateContent` endpoint.
6. Check the reply's shape.
7. On success, append the assistant's text as a turn. On any failure, show `Error: <detail>. Please try again.`.
8. In `finally`, clear the loading flag on every path.

The model has four modules:

- `Wrappers` (`wrappers.dfy`): `Option` and `Result`.
- `GeminiApi` (`gemini_api.dfy`): the turn type, the request, the possible replies, the response-shape check, and the error-detail and error-text formatting. All of these are pure functions.
- `SessionState` (`session_state.dfy`): the state triple `Snapshot` and the state-setter calls the hook makes (`Update`). `Replay` applies setter calls in order. `Effects` is the exact list of setter calls one `sendMessage` makes. `After` is the state one call leaves behind, found by replaying its setter calls. `Outcome` states that state directly for each path. `Run` is the state after a series of calls. The lemmas state, path by path, what a call does.
- `ChatSession` (`chat_session.dfy`): class `Session`, with the three state fields, one method per setter, and the imperative `SendMessage` with its helper `Exchange` (the part of the `try` block after a credential was found). A ghost `trace` records every setter call. `Valid()` says the fields are exactly `Replay(Initial, trace)`. `SendMessage` follows the source's try/catch/finally step by step. It is proved to make exactly the setter calls `Effects` lists and to leave the state `Outcome` gives. `Scenario` is a client: a fresh session, credential `"k1"`, message `"Hello"`, reply `"Hi there"`.

The two side effects are inputs to `SendMessage`:

- The credential read is a `KeyLookup`: `Stored(Option<string>)`, or `LookupRejected(thrown)` when `AsyncStorage.getItem` rejects. The read happens inside the `try`, so a rejected read reaches the `catch`.
- The endpoint call is a `Reply`:
  - `Rejected(thrown)`: `fetch` or `response.json()` rejected.
  - `NotOk(errorBody)`: a non-2xx status.
  - `Ok(body)`: a 2xx status.

  Each body is a datatype with optional fields. A thrown value is `ErrorValue(message)` (an `Error` object) or `OtherValue` (anything else).

Some behaviour a reader might expect is not in the code; the model follows the code:

- The code has no guard that ignores empty or whitespace-only content. `sendMessage` appends whatever content it gets. Only the chat screen trims input before calling it. So the model has no such no-op.
- When the credential is missing, the code never sets the loading flag to `true`. But its `finally` still calls `setIsLoading(false)`. `Effects` records that call, and the flag ends `false`.
- The code reads the credential before it appends the user turn. It does not append first.
- The shape check looks only at the first candidate and its first part. Extra candidates or parts are ignored rather than rejected (`OnlyFirstCandidateCounts`, `OnlyFirstPartCounts`).
- Only the current content is sent, never the earlier turns (`RequestCarriesOnlyContent`). The model keeps this.

## Model

| member | source | states |
|---|---|---|
| GeminiApi.FirstText | project/hooks/useGeminiAPI.ts:54 | the optional chain yields a value only when the first candidate, its content and its first part all exist, and the value is that part's `text` |
| GeminiApi.OnlyFirstPartCounts | project/hooks/useGeminiAPI.ts:54-58 | within the first candidate, the outcome depends only on the first part: any parts after it are ignored |
| GeminiApi.RequestFor | project/hooks/useGeminiAPI.ts:33-44 | the request uses the credential as its key and has one content entry with exactly one text part, the current content |
| SessionState.HasKey | project/hooks/useGeminiAPI.ts:20-22 | a null credential, the empty string and a rejected read all fail the `!apiKey` check; any non-empty stored string passes it |
| SessionState.Apply | project/hooks/useGeminiAPI.ts:12-29 | `setError` replaces only the error, `setIsLoading` only the flag, and the functional `setMessages(prev => [...prev, m])` only appends `m` to the history |
| SessionState.ReplyUpdate | project/hooks/useGeminiAPI.ts:58-66 | the last setter call of the `try` block appends the assistant turn, with the reply's text, exactly when the reply is usable; otherwise the `catch` sets the error to the formatted failure detail |
| GeminiApi.ServerMessage | project/hooks/useGeminiAPI.ts:47-50 | a non-ok reply's detail is the server's `error.message` when present and non-empty, else "Failed to get response from Gemini API"; never empty |
| GeminiApi.Complete | project/hooks/useGeminiAPI.ts:47-58 | the reply yields text exactly when it is a 2xx reply of the usable shape, and then the text is the non-empty `candidates[0].content.parts[0].text`; a 2xx reply of any other shape throws "Invalid response format from API"; a non-ok reply throws the server message; a rejection passes its value on |
| GeminiApi.FirstTextMatchesShape | project/hooks/useGeminiAPI.ts:54-58 | the optional chain is truthy exactly when every step of the path exists and the text is non-empty, and then it yields that text |
| GeminiApi.CanonicalReply | project/hooks/useGeminiAPI.ts:54-58 | a reply of the documented shape with text `t` is accepted with `t` exactly when `t` is non-empty, and is otherwise malformed |
| GeminiApi.NoCandidatesIsMalformed | project/hooks/useGeminiAPI.ts:54-56 | `candidates: []` gives the invalid-format failure, not a crash |
| GeminiApi.OnlyFirstCandidateCounts | project/hooks/useGeminiAPI.ts:54-58 | the outcome depends only on the first candidate: any candidates after it are ignored |
| GeminiApi.FailureReported | project/hooks/useGeminiAPI.ts:47-66 | every failing reply fails `Complete` with the detail of its case: the thrown value's, the server message, or the invalid-format message |
| GeminiApi.Detail | project/hooks/useGeminiAPI.ts:65 | an `Error` gives its own message; any other thrown value gives "An unknown error occurred" |
| GeminiApi.ErrorText | project/hooks/useGeminiAPI.ts:66 | the shown text is "Error: ", then the detail, then ". Please try again.", and the detail can be read back from between them |
| GeminiApi.ErrorTextInjective | project/hooks/useGeminiAPI.ts:66 | two failures show the same text only if their details are equal |
| GeminiApi.ErrorTextIsNotMissingKey | project/hooks/useGeminiAPI.ts:66 | no failure text equals the missing-credential message |
| GeminiApi.RequestCarriesOnlyContent | project/hooks/useGeminiAPI.ts:33-45 | the request carries the read credential as its key, and the current content as its one and only text part |
| SessionState.RequestSent | project/hooks/useGeminiAPI.ts:20-45 | a request is sent exactly when a truthy credential was read, and it is the request for the current content |
| SessionState.Effects | project/hooks/useGeminiAPI.ts:16-70 | a call makes 5 setter calls when a credential is found and 3 otherwise; the first clears the error and the last clears the loading flag; loading is set `true` exactly when a credential is found, and only right after the user turn is appended |
| SessionState.ReplayKeepsHistory | project/hooks/useGeminiAPI.ts:29-62 | no sequence of setter calls removes or edits a turn: the old history is a prefix of the new one |
| SessionState.NoCredential | project/hooks/useGeminiAPI.ts:20-25 | with a null or empty credential, the history is unchanged, the error is exactly "Please set your API key in settings to use the chat.", loading ends `false`, and no request is sent |
| SessionState.CredentialReadFails | project/hooks/useGeminiAPI.ts:19-70 | a rejected credential read leaves the history unchanged, shows the formatted failure, ends not loading, and sends no request |
| SessionState.InFlight | project/hooks/useGeminiAPI.ts:28-33 | while the request is in flight, the user turn is already appended, the error is clear and loading is `true` |
| SessionState.SuccessfulSend | project/hooks/useGeminiAPI.ts:28-62 | on a usable reply, the history becomes the old history, then the user turn, then the assistant turn with the reply text; the error is null and loading is `false` |
| SessionState.FailedSend | project/hooks/useGeminiAPI.ts:28-66 | on any failure after a credential is found, only the user turn is appended, the error is "Error: " + detail + ". Please try again.", and loading is `false` |
| SessionState.ReplayMatchesOutcome | project/hooks/useGeminiAPI.ts:16-71 | the setter calls one call makes leave exactly the state that `Outcome` gives for its path. `Outcome` states each path directly: a rejected read, no credential, a usable reply, a failing reply |
| SessionState.ReplayedCall | project/hooks/useGeminiAPI.ts:16-71 | if a session's state is the replay of its setter log, then after one more call the replay of the longer log is that call's `Outcome` |
| SessionState.LoadingAlwaysCleared | project/hooks/useGeminiAPI.ts:68-70 | on every path, loading is `false` when the call returns |
| SessionState.HistoryAppendOnly | project/hooks/useGeminiAPI.ts:28-62 | a call keeps the old history as a prefix and adds 2 turns on success, 1 on a failure after a credential is found, and 0 otherwise |
| SessionState.NoErrorExactlyOnSuccess | project/hooks/useGeminiAPI.ts:17-66 | after a call, the error is null exactly when the call succeeded |
| SessionState.RunAppendOnly | project/hooks/useGeminiAPI.ts:29-62 | over any series of calls, earlier turns are never removed or changed |
| SessionState.FailuresAppendUserTurns | project/hooks/useGeminiAPI.ts:28-66 | over N calls that each fail after a credential is found, the history gains exactly their N user turns, in order, and no assistant turn |
| SessionState.RepeatedFailures | project/hooks/useGeminiAPI.ts:28-66 | N failing calls append exactly their N user turns in order and no assistant turn; the error then reports only the last failure, and loading is `false` |
| ChatSession.Session.constructor | project/hooks/useGeminiAPI.ts:12-14 | a new session has no turns, is not loading, and has no error |
| ChatSession.Session.SetError | project/hooks/useGeminiAPI.ts:14 | `setError` replaces the error and changes nothing else, keeping the state equal to the replay of its setter calls |
| ChatSession.Session.SetIsLoading | project/hooks/useGeminiAPI.ts:13 | `setIsLoading` replaces the flag and changes nothing else, keeping the state equal to the replay of its setter calls |
| ChatSession.Session.AppendMessage | project/hooks/useGeminiAPI.ts:29 | `setMessages(prev => [...prev, m])` appends `m` and changes nothing else, keeping the state equal to the replay of its setter calls |
| ChatSession.Session.Exchange | project/hooks/useGeminiAPI.ts:28-66 | once a credential is found: the user turn is appended and loading set, the request for the content is sent, and then the assistant turn is appended on a usable reply, or the formatted failure is shown; nothing else changes and the state stays the replay of its setter calls |
| ChatSession.Session.SendMessage | project/hooks/useGeminiAPI.ts:16-71 | the method makes exactly the setter calls of `Effects`, in order; it leaves the state `Outcome` gives for its path; it returns the request `RequestSent` gives; and it keeps the state equal to the replay of all setter calls so far |
| ChatSession.Scenario | project/hooks/useGeminiAPI.ts:16-62 | from a fresh session, credential "k1", message "Hello" and reply "Hi there", the history is exactly [user "Hello", assistant "Hi there"], with no error and not loading |

## Left out

- Network and storage I/O (`fetch`, `AsyncStorage.getItem`): their outcomes are parameters of `SendMessage` (`KeyLookup`, `Reply`). The fixed endpoint URL, the `?key=` query string and the `Content-Type` header are not modelled. The request is given as its key and its JSON body structure.
- JSON parsing and serialisation: bodies are datatypes with optional fields. A parse failure is a `Rejected` reply.
- A `null` first candidate or first part needs no extra case: `?.` short-circuits at line 54, and `Candidate(None)` and `Part(None)` already give the invalid-format failure.
- A `null` body: a `null` 2xx body (`data.candidates` at line 54) or a `null` error body (`errorData.error` at line 49) raises a `TypeError`. The body types cannot be `null`, so the model does not derive this. Such a call can be passed in as `Rejected(ErrorValue(...))` with the `TypeError`'s message.
- JSON values of an unexpected type, such as a non-string `text` or `message`, are not modelled.
- React hook mechanics: `useState`, `useCallback`, and the batching and asynchrony of state updates. The setters take effect one after another, in call order.
- Overlapping `sendMessage` calls and replies that finish out of order: this is concurrency. `Run` models only calls made one after another.
- `console.error` logging in the `catch` block.
- The presentation layer: the chat screen's trim check and its disabled send button, the settings screen that stores the credential, and the rendering, theme and navigation files.
