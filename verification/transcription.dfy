/** `transcribeAudio`: option defaults, provider selection, the three flows
    wired to the emit gate, and the cancel handle. */
module Transcription {
  import opened Optional
  import opened JsonValues
  import opened Events
  import opened Traces
  import opened Flows
  import opened Stream
  import Urls
  import Gate

  /** Process environment: the two defaults are read when the module loads,
      the OpenAI key on each direct call. */
  datatype Env = Env(
    defaultApiBase: Option<string>,   // EXPO_PUBLIC_TRANSCRIPTION_API
    onDeviceSetting: Option<string>,  // EXPO_PUBLIC_WHISPER_ON_DEVICE
    openAiKey: Option<string>)        // EXPO_PUBLIC_OPENAI_API_KEY

  /** `TranscriptionOptions` without the callback; `None` is an omitted field. */
  datatype Options = Options(
    audioUri: string,
    language: Language,
    agenda: Option<string>,
    apiBaseUrl: Option<string>,
    onDevice: Option<bool>)

  /** Scripted outcomes of all outside calls; each flow reads only its own part. */
  datatype Script = Script(
    onDevice: OnDeviceScript,
    direct: FetchOutcome,
    upload: FetchOutcome,
    stream: seq<SocketSignal>)

  datatype Provider = OnDevice | DirectWhisper | Relay

  /** How the promise returned by `transcribeAudio` settles. */
  datatype Settlement = HandleReturned | Rejects(reason: Thrown)

  /** One call: the provider chosen, how the promise settles, every event the
      service attempts to emit (in order), the outside work it starts, and how
      many events are emitted before the cancel handle reaches the caller. */
  datatype Session = Session(
    provider: Provider,
    settlement: Settlement,
    events: seq<Event>,
    effects: seq<Effect>,
    handleAfter: nat)

  /** `apiBaseUrl = DEFAULT_API_BASE`: the default applies only when the option is omitted. */
  function ResolvedBase(opts: Options, env: Env): Option<string> {
    if opts.apiBaseUrl.Some? then opts.apiBaseUrl else env.defaultApiBase
  }

  /** `onDevice = USE_ON_DEVICE`, where the setting counts only when it is exactly `'true'`. */
  function ResolvedOnDevice(opts: Options, env: Env): bool {
    if opts.onDevice.Some? then opts.onDevice.value else env.onDeviceSetting == Some("true")
  }

  /** `useOnDeviceWhisper` / `useDirectWhisper`, tested in that order. */
  function Select(onDevice: bool, base: Option<string>): (p: Provider)
    ensures p == OnDevice <==> onDevice
    ensures p == DirectWhisper <==> !onDevice && !Given(base)
    ensures p == Relay <==> !onDevice && Given(base)
  {
    if onDevice then OnDevice else if !Given(base) then DirectWhisper else Relay
  }

  const InvalidUrlText: string := "Invalid URL"

  /** `transcribeAudio` with all outside calls scripted. */
  function Transcribe(opts: Options, env: Env, sc: Script): Session {
    var base := ResolvedBase(opts, env);
    match Select(ResolvedOnDevice(opts, env), base)
    case OnDevice =>
      var body := OnDeviceBody(opts.audioUri, opts.language, sc.onDevice);
      Session(OnDevice, HandleReturned, Settle(body, base), body.effects, 2)
    case DirectWhisper =>
      var body := DirectBody(opts.audioUri, opts.language, opts.agenda, base, env.openAiKey, sc.direct);
      Session(DirectWhisper, HandleReturned, Settle(body, base), body.effects, if Given(env.openAiKey) then 2 else 0)
    case Relay =>
      var up := UploadBody(opts.audioUri, opts.language, opts.agenda, base, sc.upload);
      match up.result
      case Threw(t) => Session(Relay, Rejects(t), up.events, up.effects, |up.events|)
      case Returned(id) =>
        var connected := up.events + [Status(Constant(UploadComplete))];
        match Urls.StreamUrl(base.value, Display(id))
        case None => Session(Relay, Rejects(Foreign(TypeError(InvalidUrlText))), connected, up.effects, |connected|)
        case Some(url) =>
          Session(Relay, HandleReturned, connected + StreamEvents(sc.stream), up.effects + [OpenSocket(url)], |connected|)
  }

  /** The events the listener receives when the caller invokes the cancel
      handle after seeing `cancelAfter` events (never, for `None`). The handle
      cannot be invoked before it is returned, nor at all when the promise rejects. */
  function Delivered(s: Session, cancelAfter: Option<nat>): seq<Event> {
    if s.settlement.Rejects? || cancelAfter.None? then
      Gate.Run(Gate.Initial(), Gate.Attempts(s.events)).delivered
    else
      var k := if cancelAfter.value < s.handleAfter then s.handleAfter else cancelAfter.value;
      var n := if k < |s.events| then k else |s.events|;
      Gate.Run(Gate.Initial(), Gate.Attempts(s.events[..n]) + [Gate.Invoke] + Gate.Attempts(s.events[n..])).delivered
  }

  // --------------------------------------------------------------- effects

  predicate CallsWhisperApi(effects: seq<Effect>) {
    exists i :: 0 <= i < |effects| && effects[i].PostWhisper?
  }

  predicate CallsRelay(effects: seq<Effect>) {
    exists i :: 0 <= i < |effects| && (effects[i].PostUpload? || effects[i].OpenSocket?)
  }

  predicate RunsOnDevice(effects: seq<Effect>) {
    exists i :: 0 <= i < |effects| && (effects[i].LoadModel? || effects[i].ReadAudio? || effects[i].RunInference?)
  }

  predicate OpensSocket(effects: seq<Effect>) {
    exists i :: 0 <= i < |effects| && effects[i].OpenSocket?
  }

  // -------------------------------------------------------------- theorems

  /** The provider follows the resolved options: on-device when requested,
      otherwise direct Whisper without a base URL, otherwise the relay. */
  lemma ProviderChoice(opts: Options, env: Env, sc: Script)
    ensures var s := Transcribe(opts, env, sc);
            && (s.provider == OnDevice <==> ResolvedOnDevice(opts, env))
            && (s.provider == DirectWhisper <==> !ResolvedOnDevice(opts, env) && !Given(ResolvedBase(opts, env)))
            && (s.provider == Relay <==> !ResolvedOnDevice(opts, env) && Given(ResolvedBase(opts, env)))
  {
  }

  /** Each provider only ever touches its own transport; in particular a failed
      relay upload never falls back to the direct API. */
  lemma ProviderIsolation(opts: Options, env: Env, sc: Script)
    ensures var s := Transcribe(opts, env, sc);
            && (CallsWhisperApi(s.effects) ==> s.provider == DirectWhisper)
            && (CallsRelay(s.effects) ==> s.provider == Relay)
            && (RunsOnDevice(s.effects) ==> s.provider == OnDevice)
  {
    var s := Transcribe(opts, env, sc);
    var base := ResolvedBase(opts, env);
    match s.provider
    case OnDevice =>
      var body := OnDeviceBody(opts.audioUri, opts.language, sc.onDevice);
      OnDeviceEffectsLocal(body.effects, opts.audioUri, opts.language);
    case DirectWhisper =>
      var body := DirectBody(opts.audioUri, opts.language, opts.agenda, base, env.openAiKey, sc.direct);
      assert s.effects == body.effects;
    case Relay =>
      var up := UploadBody(opts.audioUri, opts.language, opts.agenda, base, sc.upload);
      RelayEffectsRemote(s.effects, up.effects);
  }

  lemma OnDeviceEffectsLocal(effects: seq<Effect>, uri: string, lang: Language)
    requires |effects| <= 3 && effects == OnDeviceWork(uri, lang)[..|effects|]
    ensures !CallsWhisperApi(effects) && !CallsRelay(effects)
  {
    assert forall i :: 0 <= i < |effects| ==> effects[i] == OnDeviceWork(uri, lang)[i];
  }

  lemma RelayEffectsRemote(effects: seq<Effect>, upload: seq<Effect>)
    requires forall e :: e in upload ==> e.PostUpload?
    requires effects == upload || (|effects| == |upload| + 1 && effects[..|upload|] == upload && effects[|upload|].OpenSocket?)
    ensures !CallsWhisperApi(effects) && !RunsOnDevice(effects)
  {
    forall i | 0 <= i < |effects|
      ensures !effects[i].PostWhisper? && !effects[i].LoadModel? && !effects[i].ReadAudio? && !effects[i].RunInference?
    {
      if i < |upload| {
        assert effects[i] == upload[i];
        assert upload[i] in upload;
      }
    }
  }

  /** What the listener of an on-device or direct run is offered: a success
      trace exactly when every scripted step succeeds, a failure trace otherwise;
      the promise always resolves to the cancel handle. */
  lemma LocalFlowTraces(opts: Options, env: Env, sc: Script)
    requires Transcribe(opts, env, sc).provider != Relay
    ensures var s := Transcribe(opts, env, sc);
            var ok := if s.provider == OnDevice then OnDeviceSucceeds(sc.onDevice)
                      else DirectSucceeds(env.openAiKey, sc.direct);
            && s.settlement == HandleReturned
            && (SuccessShape(s.events) <==> ok)
            && (!ok ==> FailureShape(s.events))
            && StrictlyIncreasing(Percents(s.events))
            && s.handleAfter <= |s.events|
  {
    var s := Transcribe(opts, env, sc);
    var base := ResolvedBase(opts, env);
    var body := if s.provider == OnDevice then OnDeviceBody(opts.audioUri, opts.language, sc.onDevice)
                else DirectBody(opts.audioUri, opts.language, opts.agenda, base, env.openAiKey, sc.direct);
    assert s.events == Settle(body, base);
    SettleShape(body, base);
    ShapesDisjoint(s.events);
    MilestonesIncrease(Percents(s.events));
  }

  /** The text of a successful run's `final` is the text the recogniser or the
      API returned. */
  lemma FinalCarriesText(opts: Options, env: Env, sc: Script)
    requires Transcribe(opts, env, sc).provider != Relay
    requires SuccessShape(Transcribe(opts, env, sc).events)
    ensures var s := Transcribe(opts, env, sc);
            var result := if s.provider == OnDevice then sc.onDevice.inference.result
                          else sc.direct.response.payload.value;
            s.events[|s.events| - 3] == Final(Member(result, "text").value, s.events[|s.events| - 3].message)
  {
    LocalFlowTraces(opts, env, sc);
  }

  /** Without an OpenAI key the direct flow emits exactly an error and `closed`
      and sends nothing. */
  lemma MissingKeyTrace(opts: Options, env: Env, sc: Script)
    requires Transcribe(opts, env, sc).provider == DirectWhisper
    requires !Given(env.openAiKey)
    ensures var s := Transcribe(opts, env, sc);
            && s.events == [Error(Constant(MissingApiKey)), Closed]
            && s.effects == []
            && s.settlement == HandleReturned
  {
  }

  /** The error a failed direct request reports: the response body when it is
      non-empty, else the status fallback; the network description when the
      request itself failed; a fixed message for a body without text. */
  lemma DirectErrorMessage(opts: Options, env: Env, sc: Script)
    requires Transcribe(opts, env, sc).provider == DirectWhisper
    requires Given(env.openAiKey)
    ensures var s := Transcribe(opts, env, sc);
            var err := s.events[|s.events| - 2];
            && (sc.direct.Rejected? ==> err == Error(Describe(Foreign(sc.direct.error), ResolvedBase(opts, env))))
            && (sc.direct.Responded? && !sc.direct.response.Ok() ==>
                  err == Error(HttpErrorMessage(sc.direct.response.bodyText, WhisperApi, sc.direct.response.status)))
            && (sc.direct.Responded? && sc.direct.response.Ok() && sc.direct.response.payload.Parsed?
                && !TruthyField(Member(sc.direct.response.payload.value, "text")) ==>
                  err == Error(Constant(NoTextInResponse)))
  {
    var base := ResolvedBase(opts, env);
    var body := DirectBody(opts.audioUri, opts.language, opts.agenda, base, env.openAiKey, sc.direct);
    SettleShape(body, base);
  }

  /** A model that does not load within its budget ends the on-device run with
      the localised time-out error. */
  lemma OnDeviceTimeoutMessage(opts: Options, env: Env, sc: Script)
    requires Transcribe(opts, env, sc).provider == OnDevice
    requires sc.onDevice.importRuntime.Succeeded? && sc.onDevice.load.LoadTimedOut?
    ensures var s := Transcribe(opts, env, sc);
            s.events == Announce(Localised(LoadingModel, opts.language), Uploading)
                        + [Error(Localised(ModelLoadTimedOut, opts.language)), Closed]
  {
  }

  /** A failed relay upload rejects the promise: the listener has seen only the
      upload announcement, no error and no `closed`, no socket is opened and the
      direct API is not tried. */
  lemma RelayUploadFailure(opts: Options, env: Env, sc: Script)
    requires Transcribe(opts, env, sc).provider == Relay
    requires !UploadSucceeds(ResolvedBase(opts, env), sc.upload)
    ensures var s := Transcribe(opts, env, sc);
            && s.settlement.Rejects?
            && s.events == Announce(Localised(UploadingToApi, opts.language), Uploading)
            && Count(s.events, ErrorKind) == 0 && Count(s.events, ClosedKind) == 0
            && !OpensSocket(s.effects) && !CallsWhisperApi(s.effects)
            && (sc.upload.Responded? && !sc.upload.response.Ok() ==>
                  s.settlement.reason == Own(HttpErrorMessage(sc.upload.response.bodyText, UploadApi, sc.upload.response.status)))
  {
    var s := Transcribe(opts, env, sc);
    QuietCounts(s.events);
  }

  /** After a successful upload the stream URL is derived from the base and the
      returned id, and the listener sees the upload events, the hand-over
      status, then exactly the normalised socket events. */
  lemma RelayStream(opts: Options, env: Env, sc: Script)
    requires Transcribe(opts, env, sc).provider == Relay
    requires UploadSucceeds(ResolvedBase(opts, env), sc.upload)
    requires Urls.HasScheme(ResolvedBase(opts, env).value)
    ensures var s := Transcribe(opts, env, sc);
            var base := ResolvedBase(opts, env).value;
            var id := Member(sc.upload.response.payload.value, "id").value;
            var url := Urls.StreamUrl(base, Display(id)).value;
            && s.settlement == HandleReturned
            && Urls.HasScheme(url)
            && s.effects[|s.effects| - 1] == OpenSocket(url)
            && (Urls.Protocol(url) == "wss:" <==> Urls.Protocol(base) == "https:")
            && Urls.AfterScheme(url) == Urls.AfterScheme(base) + "/transcriptions/" + Display(id) + "/stream"
            && s.handleAfter == 5
            && s.events[..s.handleAfter] == Announce(Localised(UploadingToApi, opts.language), Uploading)
                                            + Announce(Localised(UploadFinished, opts.language), Transcribing)
                                            + [Status(Constant(UploadComplete))]
            && s.events[s.handleAfter..] == StreamEvents(sc.stream)
            && Count(s.events, ClosedKind) == CountCloses(sc.stream)
  {
    var s := Transcribe(opts, env, sc);
    var pre := s.events[..s.handleAfter];
    assert s.events == pre + StreamEvents(sc.stream);
    QuietCounts(UploadBody(opts.audioUri, opts.language, opts.agenda, ResolvedBase(opts, env), sc.upload).events);
    CountConcat(UploadBody(opts.audioUri, opts.language, opts.agenda, ResolvedBase(opts, env), sc.upload).events,
                [Status(Constant(UploadComplete))], ClosedKind);
    CountSingle(Status(Constant(UploadComplete)), ClosedKind);
    CountConcat(pre, StreamEvents(sc.stream), ClosedKind);
    StreamCounts(sc.stream);
  }

  /** After a successful upload a base URL that does not parse makes the
      stream URL throw: the promise rejects once the listener has seen the
      upload events and the hand-over status, and no socket is opened. */
  lemma RelayInvalidBase(opts: Options, env: Env, sc: Script)
    requires Transcribe(opts, env, sc).provider == Relay
    requires UploadSucceeds(ResolvedBase(opts, env), sc.upload)
    requires !Urls.HasScheme(ResolvedBase(opts, env).value)
    ensures var s := Transcribe(opts, env, sc);
            && s.settlement == Rejects(Foreign(TypeError(InvalidUrlText)))
            && s.events == Announce(Localised(UploadingToApi, opts.language), Uploading)
                           + Announce(Localised(UploadFinished, opts.language), Transcribing)
                           + [Status(Constant(UploadComplete))]
            && Count(s.events, ErrorKind) == 0 && Count(s.events, ClosedKind) == 0
            && !OpensSocket(s.effects) && !CallsWhisperApi(s.effects)
  {
    var s := Transcribe(opts, env, sc);
    var up := UploadBody(opts.audioUri, opts.language, opts.agenda, ResolvedBase(opts, env), sc.upload);
    QuietCounts(up.events);
    CountConcat(up.events, [Status(Constant(UploadComplete))], ClosedKind);
    CountConcat(up.events, [Status(Constant(UploadComplete))], ErrorKind);
    CountSingle(Status(Constant(UploadComplete)), ClosedKind);
    CountSingle(Status(Constant(UploadComplete)), ErrorKind);
  }

  /** The upload's own "base URL is missing" guard never fires: the relay is
      only chosen when a base URL is given. */
  lemma RelayHasBase(opts: Options, env: Env, sc: Script)
    requires Transcribe(opts, env, sc).provider == Relay
    ensures Transcribe(opts, env, sc).settlement != Rejects(Own(Constant(BaseUrlMissing)))
  {
  }

  /** The listener receives a prefix of the attempted events: all of them when
      the handle is never invoked or never returned, the first `cancelAfter`
      otherwise, but never fewer than those emitted before the handle existed. */
  lemma CancelDeliversPrefix(opts: Options, env: Env, sc: Script, cancelAfter: Option<nat>)
    ensures var s := Transcribe(opts, env, sc);
            var d := Delivered(s, cancelAfter);
            && |d| <= |s.events| && d == s.events[..|d|]
            && s.handleAfter <= |d|
            && (cancelAfter.None? || s.settlement.Rejects? ==> d == s.events)
            && ((cancelAfter.Some? && s.settlement == HandleReturned && s.handleAfter <= cancelAfter.value <= |s.events|)
                  ==> d == s.events[..cancelAfter.value])
            && (cancelAfter.Some? && s.settlement == HandleReturned ==>
                  |d| == if cancelAfter.value < s.handleAfter then s.handleAfter
                         else if cancelAfter.value < |s.events| then cancelAfter.value else |s.events|)
  {
    var s := Transcribe(opts, env, sc);
    HandleAfterBound(opts, env, sc);
    if s.settlement.Rejects? || cancelAfter.None? {
      Gate.OpenDeliversAll(Gate.Initial(), s.events);
      assert Gate.Initial<Event>().delivered + s.events == s.events;
    } else {
      var k := if cancelAfter.value < s.handleAfter then s.handleAfter else cancelAfter.value;
      var n := if k < |s.events| then k else |s.events|;
      Gate.CancelAfter(s.events, s.events[n..], n);
    }
  }

  /** The handle is returned after no more events than the run attempts. */
  lemma HandleAfterBound(opts: Options, env: Env, sc: Script)
    ensures Transcribe(opts, env, sc).handleAfter <= |Transcribe(opts, env, sc).events|
  {
  }

  /** Cancelling an on-device or direct run before it finishes means the
      listener never receives `closed`, nor any `final` or error. */
  lemma CancelSuppressesClosed(opts: Options, env: Env, sc: Script, k: nat)
    requires Transcribe(opts, env, sc).provider != Relay
    requires k + 3 <= |Transcribe(opts, env, sc).events|
    ensures var d := Delivered(Transcribe(opts, env, sc), Some(k));
            Count(d, ClosedKind) == 0 && Count(d, ErrorKind) == 0 && Count(d, FinalKind) == 0
  {
    var s := Transcribe(opts, env, sc);
    LocalFlowTraces(opts, env, sc);
    CancelDeliversPrefix(opts, env, sc, Some(k));
    var d := Delivered(s, Some(k));
    TerminalsAtEnd(s.events, |d|);
  }
}
