# Transcription orchestration of the Refmaster mobile app, in Dafny

This project models `transcribeAudio` from `src/services/transcription.ts`.
The function takes a recorded audio file and sends it to one of three
transcription paths:

- on-device Whisper;
- the OpenAI Whisper API, called directly;
- a relay backend, reached by an upload and then a WebSocket stream.

Each path reports through an `onEvent` listener. The listener receives
`status`, `progress`, `final`, `error` and `closed` events. The function
returns a cancel handle. Once the handle is invoked, no further event
reaches the listener.

Every outside call is replaced by a scripted outcome:

- `fetch` either rejects or returns a response. The response has a status, a
  body text and a JSON body.
- Loading the on-device runtime and model, reading the recording, and
  inference each succeed or fail. Model loading can also time out.
- The socket delivers a given sequence of messages, errors and closes.

With those outcomes fixed, each flow is a pure function. It returns three
things: the events the flow tries to emit, the outside work it starts, and
whether it returned or threw. The `closed` flag of `emit` is a small state
machine over "attempt to emit" and "invoke the handle" actions.

Modules, one per concern:

- `Optional`, `JsonValues`: optional values and JSON values. They cover
  JavaScript truthiness, `v?.key` (the last duplicate key wins) and `String(v)`.
- `Events`: the event union, messages, thrown values, `describeNetworkError`,
  `updateProgress`, and the choice between a response body and its status
  fallback.
- `Gate`: `emit` and the `closed` flag set by the cancel handle.
- `Urls`: `toWebSocketUrl`, the upload URL and the stream URL.
- `Forms`: the multipart fields of the direct request and of the relay upload.
- `Traces`: event counts, progress percentages, and the success and failure
  shapes of a trace.
- `Flows`: `transcribeOnDevice`, `transcribeWithOpenAI`, `uploadAudio`, and the
  shared `.then(closed)` / `.catch(error, closed)` completion.
- `Stream`: the `onmessage`, `onerror` and `onclose` handlers.
- `Transcription`: option defaults, provider selection, the whole call, the
  cancel handle, and the theorems about them.

## Model

| member | source | states |
|---|---|---|
| `JsonValues.Lookup` | src/services/transcription.ts:191-192 | A property read on parsed JSON finds a value exactly when the key occurs. The value is the one of the last occurrence of the key. |
| `JsonValues.Display` | src/services/transcription.ts:267 | The id interpolated into the stream URL is a string id unchanged; an object id prints as `[object Object]` and an empty array as the empty text. |
| `Events.ProgressOf` | src/services/transcription.ts:140-147 | `updateProgress` emits a progress event for its step. The percentage is 10 for uploading, 50 for transcribing and 100 for completed, and these values determine the step. |
| `Events.Contains` | src/services/transcription.ts:58 | `includes` is true exactly when the substring occurs at some position. |
| `Events.Describe` | src/services/transcription.ts:57-64 | A foreign `TypeError` whose message contains "Network request failed" becomes the reachability hint, which names the resolved API base. Any other `Error` yields its message. A non-Error value yields its string form. The service's own errors keep their message. |
| `Events.DescribeRewrapStable` | src/services/transcription.ts:179-181 | A fetch failure is described once and rethrown as a plain `Error`. Describing it again at the outer catch changes nothing. |
| `Events.HttpErrorMessage` | src/services/transcription.ts:185-189 | The error for a non-OK response is the response body when the body is non-empty. Otherwise, including when reading the body failed, it is the status fallback of that endpoint. |
| `Gate.EmitKeepsFlag` | src/services/transcription.ts:66-69 | `emit` never changes the `closed` flag, whatever the event, including a `closed` event. It delivers the event exactly when the flag is clear. |
| `Gate.CancelIdempotent` | src/services/transcription.ts:301-304 | Invoking the cancel handle twice has the same effect as invoking it once. The handle delivers nothing. |
| `Gate.OnlyInvokeCloses` | src/services/transcription.ts:46 | After any run of emits and handle calls, the gate is closed exactly when it was closed before or the handle was invoked. |
| `Gate.NothingAfterCancel` | src/services/transcription.ts:66-69 | Once the gate is closed, no later action delivers anything. |
| `Gate.OpenDeliversAll` | src/services/transcription.ts:66-69 | While the gate is open, every attempted event is delivered, in order. |
| `Gate.CancelAfter` | src/services/transcription.ts:328-332 | If the handle is invoked after k attempts, the listener receives exactly the first k events, whatever is attempted afterwards. |
| `Gate.Dispatch` | src/services/transcription.ts:66-69 | Dispatching emits one at a time, with the handle invoked after a given count, delivers exactly that many leading events, or all of them when the count is larger. The loop agrees with the gate's state machine run over the same attempts and invocation. |
| `Urls.ToWebSocketUrl` | src/services/transcription.ts:23-27 | The result exists exactly when the input parses as a URL. Its protocol is `wss:` exactly when the input's protocol is `https:`, and `ws:` otherwise. Everything after the scheme is unchanged. |
| `Urls.StreamUrl` | src/services/transcription.ts:267 | The stream URL keeps the base's host and path and appends `/transcriptions/{id}/stream`. It is secure exactly when the base is `https:`. |
| `Forms.DirectFieldValues` | src/services/transcription.ts:155-161 | The direct request carries model `whisper-1` and the language code. It carries `prompt` exactly when the agenda is non-empty, and then its value is the agenda. It never carries `agenda` or `provider`. |
| `Forms.RelayFieldValues` | src/services/transcription.ts:222-229 | The upload carries provider `whisper`, model `whisper-1` and the language code. It carries `agenda` exactly when the agenda is non-empty, and never carries `prompt`. |
| `Flows.SettleShape` | src/services/transcription.ts:293-299 | When a body returns, the completion gives a success trace. When it throws, the completion gives a failure trace that ends with the described error and then `closed`. |
| `Flows.OnDeviceBody` | src/services/transcription.ts:71-138 | The on-device flow returns exactly when every step succeeds and the result has truthy text. It always opens with the loading status and 10 %, and a timed-out load throws the localised time-out message. The work it starts is a prefix of: load the model, read the audio, run inference. |
| `Flows.DirectBody` | src/services/transcription.ts:149-206 | The direct flow returns exactly when a key is set, the response is 2xx and the JSON has truthy `text`. Without a key it emits nothing and sends nothing. Otherwise it sends exactly one bearer-authenticated request. A rejected fetch or a non-OK response throws the message chosen by `Describe` or `HttpErrorMessage`. |
| `Flows.UploadBody` | src/services/transcription.ts:208-260 | The upload returns a truthy `id` exactly when a base is set, the response is 2xx and the JSON has a truthy `id`. Without a base it emits nothing and posts nothing. Otherwise it posts once, to `{base}/transcriptions`, and emits only status and progress events: two on failure, four on success. |
| `Stream.OnMessage` | src/services/transcription.ts:270-280 | A message whose JSON has a truthy `type` is forwarded unchanged. Parseable JSON without one is dropped. Unparseable data becomes a status event carrying the raw text. |
| `Stream.StreamCounts` | src/services/transcription.ts:282-288 | Every socket close yields exactly one `closed` and every socket error exactly one error event. No signal yields a locally built `final`, and no signal yields more than one event. |
| `Stream.DeliverSignals` | src/services/transcription.ts:270-288 | Running the handlers one signal at a time emits the stream's events, at most one per signal. The `closed` events the service builds itself equal the socket closes in number; forwarded server messages of type `closed` arrive as relayed data and are not among them. |
| `Stream.StreamConcat` | src/services/transcription.ts:270-288 | The handlers keep no state between signals: the events of two signal runs in sequence are the events of the first run followed by those of the second. |
| `Stream.StreamIsNotTerminated` | src/services/transcription.ts:270-288 | A server-sent `closed` message can be followed by a forwarded `final` and then the socket's `closed`. The relay trace has no single-terminal ordering. |
| `Transcription.Select` | src/services/transcription.ts:48-49 | On-device is chosen exactly when requested. Otherwise direct Whisper is chosen exactly when the base URL is absent or empty, and the relay exactly when it is non-empty. |
| `Transcription.ProviderChoice` | src/services/transcription.ts:33-49 | The whole call picks its provider from the resolved options, with defaults applied only to omitted options: on-device exactly when requested, otherwise direct Whisper exactly when the base URL is absent or empty, otherwise the relay. |
| `Transcription.ProviderIsolation` | src/services/transcription.ts:291-326 | Only the direct flow calls the Whisper API, only the relay uploads or opens a socket, and only the on-device flow runs the model, so a failed relay upload never falls back to the direct API. |
| `Transcription.LocalFlowTraces` | src/services/transcription.ts:291-321 | An on-device or direct call always resolves to the handle. Its trace is a success trace (10, 50, 100; one `final` before 100 %; one `closed`, last) exactly when every step succeeds. Otherwise it is a failure trace (one error, then `closed`, no `final`). |
| `Transcription.FinalCarriesText` | src/services/transcription.ts:197-204 | The `final` event of a successful call carries the text the recogniser or the API returned. |
| `Transcription.MissingKeyTrace` | src/services/transcription.ts:150-153 | A direct call without an OpenAI key emits exactly the missing-key error and `closed`, and starts no request. |
| `Transcription.DirectErrorMessage` | src/services/transcription.ts:172-195 | The error of a failed direct call is the network description when the request failed, and the body-or-status message when the response is not OK. It is the fixed no-text message when the JSON lacks `text`. |
| `Transcription.OnDeviceTimeoutMessage` | src/services/transcription.ts:95-103 | When the model load times out, the on-device trace is the loading announcement, the localised time-out error, then `closed`. |
| `Transcription.RelayUploadFailure` | src/services/transcription.ts:323 | A failed relay upload rejects the promise. The listener saw only the upload announcement: no error and no `closed`. No socket is opened, the direct API is not tried, and a non-OK response rejects with the body-or-status message. |
| `Transcription.RelayStream` | src/services/transcription.ts:323-326 | After a successful upload, the call resolves and its last outside action opens the socket at the stream URL built from the base and the returned id. The listener sees four upload events and the hand-over status, then exactly the normalised socket events. The service's own `closed` events equal the socket closes in number; forwarded server `closed` messages are not counted there. |
| `Transcription.RelayInvalidBase` | src/services/transcription.ts:323-326 | When the upload succeeds but the base URL does not parse, the promise rejects with the URL `TypeError` after the listener has seen the upload events and the hand-over status, with no error and no `closed`. No socket is opened and the direct API is not tried. |
| `Transcription.RelayHasBase` | src/services/transcription.ts:209-211 | The upload's "base URL is missing" error never happens, because the relay is chosen only with a non-empty base. |
| `Transcription.CancelDeliversPrefix` | src/services/transcription.ts:301-304 | The listener receives a prefix of the attempted events. It receives all of them when the handle is never invoked or the promise rejects. Otherwise it receives exactly the events before the invocation, and never fewer than those emitted before the handle was returned. |
| `Transcription.CancelSuppressesClosed` | src/services/transcription.ts:317-320 | Cancelling an on-device or direct call before its last three events means the listener never receives `closed`, an error or a `final`. |

## Left out

- Real I/O is not modelled: `fetch`, `FormData`/`Blob`, `WebSocket`, `AbortController`, the `@xenova/transformers` pipeline and audio decoding. Each is a scripted outcome.
- The cancel handle also aborts the in-flight request and closes the socket. The model does not replay what follows: anything emitted after the handle is invoked is dropped by the gate, so the delivered events do not depend on it.
- Timers are not modelled. This covers `withTimeout` and the 45-second model-load race (src/services/transcription.ts:82-103); a timed-out load is one more scripted outcome.
- The timing of the event loop is abstracted. The handle becomes available after 2 events for on-device and direct calls, or 0 when the key is missing. For the relay it is available after the upload events and the hand-over status.
- `createWhisperAbortManager` and `TranscriptionResult`, which src/services/transcription.test.ts imports, are not part of this model. They are not defined in `transcription.ts`.
- The code has no relay-to-direct fallback, no truncation of error bodies, and no taxonomy of failure codes. The model has none either.
- Cancelling does not stop on-device work: its abort signal reaches only the network requests. The model's effects list therefore shows the on-device work regardless of cancellation.
- The relay trace is not normalised: server events are forwarded as they come (`Stream.StreamIsNotTerminated`).
- `Urls.ToWebSocketUrl`: any string with a non-empty prefix before its first `:` counts as a valid URL. The full URL grammar and the serialisation by `url.toString()` are not modelled. In particular, a trailing `/` added to a bare host is not modelled. Two further differences from the URL standard are not modelled. The `protocol` setter leaves a non-special scheme unchanged, so `foo:bar` stays `foo:bar` where the model gives `ws:bar`. `new URL` strips leading and trailing spaces, so ` https://x` maps to `wss:` where the model keeps the space in the scheme and gives `ws:`. For a base without a path, such as `https://h`, the program serialises the socket URL as `wss://h/`, so its stream URL contains `//transcriptions`; for such a base the URL of `Urls.StreamUrl` and `Transcription.RelayStream` is not the one the program opens.
- `connectWebSocket`'s own missing-base check (src/services/transcription.ts:263-265) is the same test as the upload's, and it is unreachable for the same reason (`Transcription.RelayHasBase`).
- JSON numbers are integers in this model. Fractional and exponent forms are not modelled.
- `JsonValues.Display`: a numeric id prints as the exact decimal of an unbounded integer. JavaScript numbers are doubles: integers beyond 2^53 round, so two distinct model ids can name the same URL in the program, and values from 10^21 on print in exponent form (`1e+21`). For such ids the stream URL of `Transcription.RelayStream` is not the one the program opens.
- Non-text socket frames are not modelled.
- A listener that throws is not modelled; the model assumes the listener returns normally.
- The wording of messages is not modelled: the Danish and English texts are language-indexed constants.
- Console logging is not modelled.
- The service never builds `partial` events itself; they can only arrive as forwarded socket messages.
