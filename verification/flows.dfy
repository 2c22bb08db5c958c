/** The three transport flows of `transcribeAudio` over scripted I/O outcomes:
    `transcribeOnDevice`, `transcribeWithOpenAI` and `uploadAudio`, plus the
    `.then(closed)` / `.catch(error, closed)` completion that the on-device and
    direct flows share. Each flow yields the events it emits, the outside work
    it starts, and whether it returned or threw. */
module Flows {
  import opened Optional
  import opened JsonValues
  import opened Events
  import opened Forms
  import opened Traces
  import Urls

  /** Work started outside the service, in the order it is started. */
  datatype Effect =
    | LoadModel                                                   // the on-device speech pipeline
    | ReadAudio(uri: string)                                      // `fetch(audioUri)` of the recording
    | RunInference(language: Language, chunkSeconds: nat, strideSeconds: nat)
    | PostWhisper(url: string, authorization: string, fields: seq<FormField>)
    | PostUpload(url: string, fields: seq<FormField>)
    | OpenSocket(url: string)

  const ChunkLengthSeconds: nat := 30
  const StrideLengthSeconds: nat := 5
  const WhisperUrl: string := "https://api.openai.com/v1/audio/transcriptions"

  datatype Outcome<T> = Returned(value: T) | Threw(thrown: Thrown)

  datatype FlowRun<T> = FlowRun(events: seq<Event>, effects: seq<Effect>, result: Outcome<T>)

  // ---------------------------------------------------------------- scripts

  /** Outcome of an awaited foreign step that yields nothing the flow inspects. */
  datatype Attempt = Succeeded | Failed(error: ForeignError)

  /** Outcome of loading the on-device model under its 45 s budget. */
  datatype LoadOutcome = Loaded | LoadFailed(error: ForeignError) | LoadTimedOut

  datatype InferenceOutcome = Inferred(result: Json) | InferenceFailed(error: ForeignError)

  /** Outcomes of the on-device steps: importing the runtime, loading the
      model, reading the recording (fetch plus `arrayBuffer`), and inference. */
  datatype OnDeviceScript = OnDeviceScript(
    importRuntime: Attempt,
    load: LoadOutcome,
    readAudio: Attempt,
    inference: InferenceOutcome)

  /** Result of `response.json()`. */
  datatype JsonOutcome = Parsed(value: Json) | Unparsable(error: ForeignError)

  /** An HTTP response: its status, its body as text (`None` when reading it
      threw), and its body as JSON. */
  datatype Response = Response(status: int, bodyText: Option<string>, payload: JsonOutcome) {
    /** `response.ok` */
    predicate Ok() {
      200 <= status <= 299
    }
  }

  /** Outcome of a `fetch`: rejected (network failure, abort) or a response. */
  datatype FetchOutcome = Rejected(error: ForeignError) | Responded(response: Response)

  // ------------------------------------------------------------ trace facts

  /** Only status and progress events: nothing terminal. */
  predicate Quiet(t: seq<Event>) {
    forall i :: 0 <= i < |t| ==> t[i].Status? || t[i].Progress?
  }

  lemma {:induction false} QuietCounts(t: seq<Event>)
    requires Quiet(t)
    ensures Count(t, FinalKind) == 0 && Count(t, ErrorKind) == 0 && Count(t, ClosedKind) == 0
    decreases |t|
  {
    if |t| > 0 {
      QuietCounts(t[1..]);
    }
  }

  /** A status event followed by the progress event of `step`. */
  function Announce(m: Message, step: Step): seq<Event> {
    [Status(m), ProgressOf(step)]
  }

  lemma AnnounceFacts(m: Message, step: Step)
    ensures Quiet(Announce(m, step))
    ensures Percents(Announce(m, step)) == [Percent(step)]
  {
    PercentsConcat([Status(m)], [ProgressOf(step)]);
    PercentsSingle(Status(m));
    PercentsSingle(ProgressOf(step));
    assert Announce(m, step) == [Status(m)] + [ProgressOf(step)];
  }

  /** What a flow body promises the completion handlers: before a throw only
      status and progress events with the milestones reached so far; on return,
      the same followed by a `final` with truthy text and the 100 % progress. */
  predicate LocalBody(r: FlowRun<()>) {
    match r.result
    case Threw(_) =>
      && Quiet(r.events)
      && IsPrefix(Percents(r.events), Milestones) && |Percents(r.events)| < |Milestones|
    case Returned(_) =>
      && |r.events| >= 2
      && Quiet(r.events[..|r.events| - 2])
      && Percents(r.events[..|r.events| - 2]) == [10, 50]
      && r.events[|r.events| - 2].Final? && Truthy(r.events[|r.events| - 2].text)
      && r.events[|r.events| - 1] == ProgressOf(Completed)
  }

  lemma QuietConcat(a: seq<Event>, b: seq<Event>)
    requires Quiet(a) && Quiet(b)
    ensures Quiet(a + b)
  {
  }

  /** A throwing body, given the quiet events emitted before the throw. */
  function Throwing(events: seq<Event>, effects: seq<Effect>, t: Thrown): (r: FlowRun<()>)
    requires Quiet(events)
    requires IsPrefix(Percents(events), Milestones) && |Percents(events)| < |Milestones|
    ensures LocalBody(r) && r.result.Threw?
  {
    FlowRun(events, effects, Threw(t))
  }

  /** A returning body: the quiet events that reached 50 %, then `final(text)`
      and the 100 % progress. */
  function Finishing(before: seq<Event>, text: Json, m: Message, effects: seq<Effect>): (r: FlowRun<()>)
    requires Quiet(before) && Percents(before) == [10, 50] && Truthy(text)
    ensures LocalBody(r) && r.result.Returned?
    ensures r.events == before + [Final(text, m), ProgressOf(Completed)] && r.effects == effects
  {
    var events := before + [Final(text, m), ProgressOf(Completed)];
    assert events[..|events| - 2] == before;
    FlowRun(events, effects, Returned(()))
  }

  /** `.then(() => emit(closed))` / `.catch(e => { emit(error(describe(e))); emit(closed) })`. */
  function Settle(r: FlowRun<()>, base: Option<string>): seq<Event> {
    match r.result
    case Returned(_) => r.events + [Closed]
    case Threw(t) => r.events + [Error(Describe(t, base)), Closed]
  }

  /** A well-behaved body settles into the success shape when it returns and the
      failure shape, ending in its described error, when it throws. */
  lemma SettleShape(r: FlowRun<()>, base: Option<string>)
    requires LocalBody(r)
    ensures r.result.Returned? ==> SuccessShape(Settle(r, base))
    ensures r.result.Threw? ==> FailureShape(Settle(r, base))
    ensures r.result.Threw? ==> Settle(r, base)[|Settle(r, base)| - 2] == Error(Describe(r.result.thrown, base))
  {
    if r.result.Returned? {
      SettleReturned(r, base);
    } else {
      SettleThrew(r, base);
    }
  }

  lemma SettleReturned(r: FlowRun<()>, base: Option<string>)
    requires LocalBody(r) && r.result.Returned?
    ensures SuccessShape(Settle(r, base))
  {
    var t := Settle(r, base);
    var n := |r.events|;
    var q := r.events[..n - 2];
    var f := r.events[n - 2];
    var c := r.events[n - 1];
    assert t == q + [f] + [c] + [Closed];
    QuietCounts(q);
    forall k: Kind ensures Count(t, k) == Count(q, k) + Count([f], k) + Count([c], k) + Count([Closed], k) {
      CountConcat(q + [f] + [c], [Closed], k);
      CountConcat(q + [f], [c], k);
      CountConcat(q, [f], k);
    }
    forall k: Kind ensures Count([f], k) == (if k == FinalKind then 1 else 0)
                       && Count([c], k) == (if k == ProgressKind then 1 else 0)
                       && Count([Closed], k) == (if k == ClosedKind then 1 else 0) {
      CountSingle(f, k);
      CountSingle(c, k);
      CountSingle(Closed, k);
    }
    PercentsConcat(q + [f] + [c], [Closed]);
    PercentsConcat(q + [f], [c]);
    PercentsConcat(q, [f]);
    PercentsSingle(f);
    PercentsSingle(c);
    PercentsSingle(Closed);
  }

  lemma SettleThrew(r: FlowRun<()>, base: Option<string>)
    requires LocalBody(r) && r.result.Threw?
    ensures FailureShape(Settle(r, base))
    ensures Settle(r, base)[|Settle(r, base)| - 2] == Error(Describe(r.result.thrown, base))
  {
    var t := Settle(r, base);
    var e := Error(Describe(r.result.thrown, base));
    assert t == r.events + [e] + [Closed];
    QuietCounts(r.events);
    forall k: Kind ensures Count(t, k) == Count(r.events, k) + Count([e], k) + Count([Closed], k) {
      CountConcat(r.events + [e], [Closed], k);
      CountConcat(r.events, [e], k);
    }
    forall k: Kind ensures Count([e], k) == (if k == ErrorKind then 1 else 0)
                       && Count([Closed], k) == (if k == ClosedKind then 1 else 0) {
      CountSingle(e, k);
      CountSingle(Closed, k);
    }
    PercentsConcat(r.events + [e], [Closed]);
    PercentsConcat(r.events, [e]);
    PercentsSingle(e);
    PercentsSingle(Closed);
  }

  // ------------------------------------------------------------- on-device

  /** Every on-device step succeeds and the recogniser returns truthy `text`. */
  predicate OnDeviceSucceeds(s: OnDeviceScript) {
    && s.importRuntime.Succeeded?
    && s.load.Loaded?
    && s.readAudio.Succeeded?
    && s.inference.Inferred?
    && TruthyField(Member(s.inference.result, "text"))
  }

  /** The work the on-device flow would start if every step succeeded. */
  function OnDeviceWork(uri: string, lang: Language): seq<Effect> {
    [LoadModel, ReadAudio(uri), RunInference(lang, ChunkLengthSeconds, StrideLengthSeconds)]
  }

  /** `transcribeOnDevice`. */
  function OnDeviceBody(uri: string, lang: Language, s: OnDeviceScript): (r: FlowRun<()>)
    ensures LocalBody(r)
    ensures r.result.Returned? <==> OnDeviceSucceeds(s)
    ensures r.result.Returned? ==> r.events[|r.events| - 2].text == Member(s.inference.result, "text").value
    ensures |r.events| >= 2 && r.events[..2] == Announce(Localised(LoadingModel, lang), Uploading)
    ensures s.load.LoadTimedOut? && s.importRuntime.Succeeded? ==>
              r.result == Threw(Own(Localised(ModelLoadTimedOut, lang)))
    ensures |r.effects| <= 3 && r.effects == OnDeviceWork(uri, lang)[..|r.effects|]
    ensures LoadModel in r.effects <==> s.importRuntime.Succeeded?
    ensures r.effects == OnDeviceWork(uri, lang) <==> s.importRuntime.Succeeded? && s.load.Loaded? && s.readAudio.Succeeded?
  {
    var opening := Announce(Localised(LoadingModel, lang), Uploading);
    var running := opening + Announce(Localised(RunningOnDevice, lang), Transcribing);
    var work := OnDeviceWork(uri, lang);
    AnnounceFacts(Localised(LoadingModel, lang), Uploading);
    AnnounceFacts(Localised(RunningOnDevice, lang), Transcribing);
    PercentsConcat(opening, Announce(Localised(RunningOnDevice, lang), Transcribing));
    QuietConcat(opening, Announce(Localised(RunningOnDevice, lang), Transcribing));
    assert running[..2] == opening;
    assert work[..1] == [LoadModel] && work[..2] == [LoadModel, ReadAudio(uri)];
    if s.importRuntime.Failed? then
      Throwing(opening, [], Foreign(s.importRuntime.error))
    else if s.load.LoadFailed? then
      Throwing(opening, work[..1], Foreign(s.load.error))
    else if s.load.LoadTimedOut? then
      Throwing(opening, work[..1], Own(Localised(ModelLoadTimedOut, lang)))
    else if s.readAudio.Failed? then
      Throwing(running, work[..2], Foreign(s.readAudio.error))
    else if s.inference.InferenceFailed? then
      Throwing(running, work, Foreign(s.inference.error))
    else
      var text := Member(s.inference.result, "text");
      if !TruthyField(text) then
        Throwing(running, work, Own(Constant(NoOnDeviceText)))
      else
        var r := Finishing(running, text.value, Localised(CompletedOnDevice, lang), work);
        assert r.events[..2] == running[..2];
        r
  }

  // ---------------------------------------------------------------- direct

  /** A key is configured, the request is answered with a 2xx status, and the
      JSON body carries truthy `text`. */
  predicate DirectSucceeds(apiKey: Option<string>, fetch: FetchOutcome) {
    && Given(apiKey)
    && fetch.Responded?
    && fetch.response.Ok()
    && fetch.response.payload.Parsed?
    && TruthyField(Member(fetch.response.payload.value, "text"))
  }

  /** `transcribeWithOpenAI`; `apiKey` is the configured OpenAI key. */
  function DirectBody(uri: string, lang: Language, agenda: Option<string>, base: Option<string>,
                      apiKey: Option<string>, fetch: FetchOutcome): (r: FlowRun<()>)
    ensures LocalBody(r)
    ensures r.result.Returned? <==> DirectSucceeds(apiKey, fetch)
    ensures r.result.Returned? ==> r.events[|r.events| - 2].text == Member(fetch.response.payload.value, "text").value
    ensures !Given(apiKey) ==> r == FlowRun([], [], Threw(Own(Constant(MissingApiKey))))
    ensures Given(apiKey) ==>
              && |r.events| >= 2 && r.events[..2] == Announce(Localised(SendingDirect, lang), Uploading)
              && r.effects == [PostWhisper(WhisperUrl, "Bearer " + apiKey.value, DirectFields(uri, lang, agenda))]
    ensures Given(apiKey) && fetch.Rejected? ==> r.result == Threw(Own(Describe(Foreign(fetch.error), base)))
    ensures Given(apiKey) && fetch.Responded? && !fetch.response.Ok() ==>
              r.result == Threw(Own(HttpErrorMessage(fetch.response.bodyText, WhisperApi, fetch.response.status)))
  {
    if !Given(apiKey) then
      FlowRun([], [], Threw(Own(Constant(MissingApiKey))))
    else
      var fields := DirectFields(uri, lang, agenda);
      var sent := Announce(Localised(SendingDirect, lang), Uploading);
      var effects := [PostWhisper(WhisperUrl, "Bearer " + apiKey.value, fields)];
      AnnounceFacts(Localised(SendingDirect, lang), Uploading);
      match fetch
      case Rejected(e) =>
        Throwing(sent, effects, Own(Describe(Foreign(e), base)))
      case Responded(resp) =>
        var answered := sent + [ProgressOf(Transcribing)];
        PercentsConcat(sent, [ProgressOf(Transcribing)]);
        PercentsSingle(ProgressOf(Transcribing));
        QuietConcat(sent, [ProgressOf(Transcribing)]);
        assert answered[..2] == sent;
        if !resp.Ok() then
          Throwing(answered, effects, Own(HttpErrorMessage(resp.bodyText, WhisperApi, resp.status)))
        else
          match resp.payload
          case Unparsable(e) => Throwing(answered, effects, Foreign(e))
          case Parsed(p) =>
            var text := Member(p, "text");
            if !TruthyField(text) then
              Throwing(answered, effects, Own(Constant(NoTextInResponse)))
            else
              var r := Finishing(answered, text.value, Localised(CompletedViaWhisper, lang), effects);
              assert r.events[..2] == answered[..2];
              r
  }

  // ---------------------------------------------------------- relay upload

  /** A base URL is set, the upload is answered with a 2xx status, and the JSON
      body carries a truthy `id`. */
  predicate UploadSucceeds(base: Option<string>, fetch: FetchOutcome) {
    && Given(base)
    && fetch.Responded?
    && fetch.response.Ok()
    && fetch.response.payload.Parsed?
    && TruthyField(Member(fetch.response.payload.value, "id"))
  }

  /** `uploadAudio`: returns the transcription id the relay assigned. */
  function UploadBody(uri: string, lang: Language, agenda: Option<string>, base: Option<string>,
                      fetch: FetchOutcome): (r: FlowRun<Json>)
    ensures Quiet(r.events)
    ensures r.result.Returned? <==> UploadSucceeds(base, fetch)
    ensures r.result.Returned? ==>
              && Truthy(r.result.value)
              && Member(fetch.response.payload.value, "id") == Some(r.result.value)
              && r.events == Announce(Localised(UploadingToApi, lang), Uploading)
                             + Announce(Localised(UploadFinished, lang), Transcribing)
    ensures !Given(base) ==> r == FlowRun([], [], Threw(Own(Constant(BaseUrlMissing))))
    ensures Given(base) ==> r.effects == [PostUpload(Urls.UploadUrl(base.value), RelayFields(uri, lang, agenda))]
    ensures Given(base) && r.result.Threw? ==> r.events == Announce(Localised(UploadingToApi, lang), Uploading)
    ensures Given(base) && fetch.Rejected? ==> r.result == Threw(Own(Describe(Foreign(fetch.error), base)))
    ensures Given(base) && fetch.Responded? && !fetch.response.Ok() ==>
              r.result == Threw(Own(HttpErrorMessage(fetch.response.bodyText, UploadApi, fetch.response.status)))
  {
    if !Given(base) then
      FlowRun([], [], Threw(Own(Constant(BaseUrlMissing))))
    else
      var sent := Announce(Localised(UploadingToApi, lang), Uploading);
      var effects := [PostUpload(Urls.UploadUrl(base.value), RelayFields(uri, lang, agenda))];
      AnnounceFacts(Localised(UploadingToApi, lang), Uploading);
      match fetch
      case Rejected(e) => FlowRun(sent, effects, Threw(Own(Describe(Foreign(e), base))))
      case Responded(resp) =>
        if !resp.Ok() then
          FlowRun(sent, effects, Threw(Own(HttpErrorMessage(resp.bodyText, UploadApi, resp.status))))
        else
          match resp.payload
          case Unparsable(e) => FlowRun(sent, effects, Threw(Foreign(e)))
          case Parsed(p) =>
            var id := Member(p, "id");
            if !TruthyField(id) then
              FlowRun(sent, effects, Threw(Own(Constant(NoIdReturned))))
            else
              var events := sent + Announce(Localised(UploadFinished, lang), Transcribing);
              AnnounceFacts(Localised(UploadFinished, lang), Transcribing);
              FlowRun(events, effects, Returned(id.value))
  }
}
