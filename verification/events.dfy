/** The `TranscriptionEvent` union, the user-facing messages carried by events
    and errors, the thrown-value model, and `describeNetworkError`. */
module Events {
  import opened Optional
  import opened JsonValues

  /** The two UI languages; every localised phrase has a Danish and an English text. */
  datatype Language = Da | En

  /** The `step` of a progress event, and the fixed table of `updateProgress`. */
  datatype Step = Uploading | Transcribing | Completed

  function Percent(step: Step): nat {
    match step
    case Uploading => 10
    case Transcribing => 50
    case Completed => 100
  }

  /** Phrases whose text depends on the language (their exact wording is not modelled). */
  datatype Phrase =
    | LoadingModel          // status before the on-device model is loaded
    | ModelLoadTimedOut     // error after the 45 s model-load budget
    | RunningOnDevice       // status once the on-device model is ready
    | CompletedOnDevice     // message of the on-device `final`
    | SendingDirect         // status before the direct Whisper request
    | CompletedViaWhisper   // message of the direct `final`
    | UploadingToApi        // status before the relay upload
    | UploadFinished        // status after a successful relay upload

  /** Messages that exist only in English. */
  datatype Fixed =
    | NoOnDeviceText        // the on-device result had no text
    | MissingApiKey         // no OpenAI key configured for the direct flow
    | NoTextInResponse      // direct response JSON without `text`
    | BaseUrlMissing        // relay upload or socket without a base URL
    | NoIdReturned          // relay upload JSON without `id`
    | UploadComplete        // status emitted before the socket is opened
    | StreamError           // the socket reported an error

  /** Which HTTP call a status fallback message names. */
  datatype Endpoint = WhisperApi | UploadApi

  datatype Message =
    | Localised(phrase: Phrase, language: Language)
    | Constant(fixed: Fixed)
    | Raw(text: string)                             // text taken verbatim from outside
    | NetworkHint(base: Option<string>)             // the reachability hint naming the API base
    | StatusFallback(endpoint: Endpoint, status: int) // "... (status N)"

  /** A transcription event. `Relayed` is a socket message forwarded unchanged;
      every other variant is built by the service itself. */
  datatype Event =
    | Status(message: Message)
    | Progress(step: Step, percent: nat)
    | Final(text: Json, message: Message)
    | Error(message: Message)
    | Closed
    | Relayed(data: Json)

  /** The progress event `updateProgress(step)` emits. */
  function ProgressOf(step: Step): (e: Event)
    ensures e.Progress? && e.step == step
    ensures e.percent == 10 <==> step == Uploading
    ensures e.percent == 50 <==> step == Transcribing
    ensures e.percent == 100 <==> step == Completed
  {
    Progress(step, Percent(step))
  }

  /** A value thrown by code outside the service (fetch, JSON parsing, the model runtime). */
  datatype ForeignError =
    | TypeError(message: string)
    | OtherError(message: string)   // any other `Error` instance
    | NonError(text: string)        // a thrown non-Error value, as `String(value)` renders it

  /** A thrown value: an `Error` the service builds itself, or a foreign one. */
  datatype Thrown = Own(message: Message) | Foreign(error: ForeignError)

  const NetworkFailureText: string := "Network request failed"

  predicate OccursAt(s: string, sub: string, i: nat) {
    i + |sub| <= |s| && s[i..i + |sub|] == sub
  }

  /** `s.includes(sub)`, searching from index `i` on. */
  function ContainsFrom(s: string, sub: string, i: nat): (r: bool)
    requires i <= |s|
    ensures r <==> exists j :: i <= j <= |s| && OccursAt(s, sub, j)
    decreases |s| - i
  {
    if OccursAt(s, sub, i) then true
    else if i == |s| then false
    else ContainsFrom(s, sub, i + 1)
  }

  function Contains(s: string, sub: string): (r: bool)
    ensures r <==> exists j :: 0 <= j <= |s| && OccursAt(s, sub, j)
  {
    ContainsFrom(s, sub, 0)
  }

  /** `describeNetworkError(error)`, where `base` is the resolved API base URL. */
  function Describe(t: Thrown, base: Option<string>): (m: Message)
    ensures t.Foreign? ==>
              (m.NetworkHint? <==> t.error.TypeError? && Contains(t.error.message, NetworkFailureText))
    ensures t.Foreign? && m.NetworkHint? ==> m.base == base
    ensures t.Own? ==> m == t.message
    ensures t.Foreign? && !m.NetworkHint? ==> m == Raw(ForeignText(t.error))
  {
    match t
    case Own(msg) => msg
    case Foreign(TypeError(msg)) => if Contains(msg, NetworkFailureText) then NetworkHint(base) else Raw(msg)
    case Foreign(OtherError(msg)) => Raw(msg)
    case Foreign(NonError(text)) => Raw(text)
  }

  /** The text a foreign value carries: `error.message`, or `String(value)`. */
  function ForeignText(e: ForeignError): string {
    match e
    case TypeError(msg) => msg
    case OtherError(msg) => msg
    case NonError(text) => text
  }

  /** A fetch rejection is described once where it is caught and wrapped in a
      plain `Error`; describing that wrapper again gives the same message. */
  lemma DescribeRewrapStable(e: ForeignError, base: Option<string>)
    ensures Describe(Own(Describe(Foreign(e), base)), base) == Describe(Foreign(e), base)
  {
  }

  /** `message || fallback` for a non-OK response: the body text when it is
      non-empty, the status fallback otherwise (also when reading the body threw,
      which `body == None` stands for). */
  function HttpErrorMessage(body: Option<string>, endpoint: Endpoint, status: int): (m: Message)
    ensures m.Raw? <==> Given(body)
    ensures m.Raw? ==> m.text == body.value && |m.text| > 0
    ensures !m.Raw? ==> m == StatusFallback(endpoint, status)
  {
    if Given(body) then Raw(body.value) else StatusFallback(endpoint, status)
  }
}
