/** The multipart bodies of the two HTTP calls: the direct Whisper request and
    the relay upload. */
module Forms {
  import opened Optional
  import opened Events

  /** The multipart field names this service sends. */
  datatype FieldName = FileName | ModelName | LanguageName | PromptName | ProviderName | AgendaName

  /** The name as it appears in the multipart body. */
  function NameText(n: FieldName): string {
    match n
    case FileName => "file"
    case ModelName => "model"
    case LanguageName => "language"
    case PromptName => "prompt"
    case ProviderName => "provider"
    case AgendaName => "agenda"
  }

  datatype FormField =
    | FileField(name: FieldName, uri: string, fileName: string, mimeType: string)
    | TextField(name: FieldName, value: string)

  const AudioFileName: string := "recording.m4a"
  const AudioMimeType: string := "audio/m4a"
  const WhisperModel: string := "whisper-1"
  const RelayProvider: string := "whisper"

  function LanguageCode(lang: Language): string {
    match lang
    case Da => "da"
    case En => "en"
  }

  /** The recorded file, always the first field. */
  function AudioField(uri: string): FormField {
    FileField(FileName, uri, AudioFileName, AudioMimeType)
  }

  /** The value of the first text field called `name`, as a server reads it. */
  function FieldValue(fields: seq<FormField>, name: FieldName): Option<string> {
    if |fields| == 0 then None
    else if fields[0].TextField? && fields[0].name == name then Some(fields[0].value)
    else FieldValue(fields[1..], name)
  }

  /** The first text field called `name` decides the value. */
  lemma {:induction false} FirstFieldWins(fields: seq<FormField>, name: FieldName, i: nat, v: string)
    requires i < |fields| && fields[i] == TextField(name, v)
    requires forall j :: 0 <= j < i ==> !(fields[j].TextField? && fields[j].name == name)
    ensures FieldValue(fields, name) == Some(v)
    decreases i
  {
    if i > 0 {
      FirstFieldWins(fields[1..], name, i - 1, v);
    }
  }

  /** A field list without a text field called `name` has no value for it. */
  lemma {:induction false} NoField(fields: seq<FormField>, name: FieldName)
    requires forall i :: 0 <= i < |fields| ==> !(fields[i].TextField? && fields[i].name == name)
    ensures FieldValue(fields, name) == None
    decreases |fields|
  {
    if |fields| > 0 {
      NoField(fields[1..], name);
    }
  }

  /** Fields of the direct Whisper request: file, model, language, and the
      agenda as `prompt` when one is given. */
  function DirectFields(uri: string, lang: Language, agenda: Option<string>): (r: seq<FormField>)
    ensures |r| == if Given(agenda) then 4 else 3
    ensures r[0] == AudioField(uri)
  {
    var common := [AudioField(uri), TextField(ModelName, WhisperModel), TextField(LanguageName, LanguageCode(lang))];
    if Given(agenda) then common + [TextField(PromptName, agenda.value)] else common
  }

  /** What the Whisper endpoint reads from the direct request: the fixed model,
      the language code, a `prompt` exactly when the agenda is non-empty, and
      neither of the relay-only fields. */
  lemma DirectFieldValues(uri: string, lang: Language, agenda: Option<string>)
    ensures var r := DirectFields(uri, lang, agenda);
            && FieldValue(r, ModelName) == Some(WhisperModel)
            && FieldValue(r, LanguageName) == Some(LanguageCode(lang))
            && FieldValue(r, PromptName) == (if Given(agenda) then agenda else None)
            && FieldValue(r, AgendaName) == None
            && FieldValue(r, ProviderName) == None
  {
    var r := DirectFields(uri, lang, agenda);
    FirstFieldWins(r, ModelName, 1, WhisperModel);
    FirstFieldWins(r, LanguageName, 2, LanguageCode(lang));
    if Given(agenda) {
      FirstFieldWins(r, PromptName, 3, agenda.value);
    } else {
      NoField(r, PromptName);
    }
    NoField(r, AgendaName);
    NoField(r, ProviderName);
  }

  /** Fields of the relay upload: file, provider, model, language, and the
      agenda under its own name when one is given. */
  function RelayFields(uri: string, lang: Language, agenda: Option<string>): (r: seq<FormField>)
    ensures |r| == if Given(agenda) then 5 else 4
    ensures r[0] == AudioField(uri)
  {
    var common := [AudioField(uri), TextField(ProviderName, RelayProvider), TextField(ModelName, WhisperModel),
                   TextField(LanguageName, LanguageCode(lang))];
    if Given(agenda) then common + [TextField(AgendaName, agenda.value)] else common
  }

  /** What the relay reads from the upload: provider and model fixed to Whisper,
      the language code, an `agenda` exactly when the agenda is non-empty, and
      never a `prompt`. */
  lemma RelayFieldValues(uri: string, lang: Language, agenda: Option<string>)
    ensures var r := RelayFields(uri, lang, agenda);
            && FieldValue(r, ProviderName) == Some(RelayProvider)
            && FieldValue(r, ModelName) == Some(WhisperModel)
            && FieldValue(r, LanguageName) == Some(LanguageCode(lang))
            && FieldValue(r, AgendaName) == (if Given(agenda) then agenda else None)
            && FieldValue(r, PromptName) == None
  {
    var r := RelayFields(uri, lang, agenda);
    FirstFieldWins(r, ProviderName, 1, RelayProvider);
    FirstFieldWins(r, ModelName, 2, WhisperModel);
    FirstFieldWins(r, LanguageName, 3, LanguageCode(lang));
    if Given(agenda) {
      FirstFieldWins(r, AgendaName, 4, agenda.value);
    } else {
      NoField(r, AgendaName);
    }
    NoField(r, PromptName);
  }
}
