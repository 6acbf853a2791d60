/** `POST /api/transcribe`: reads the `audio` field of a form body, hands it to
    the speech collaborator (`transcribeAudio`) and maps the outcome to a JSON
    response. */
module TranscribeRoute {
  import opened Js
  import opened Domain

  /** `formData.get("audio")`: nothing, a text entry, or a file. */
  datatype FormEntry = Absent | TextEntry(text: string) | FileEntry(file: AudioFile)

  /** What `await request.formData()` came to: the form's `audio` entry, or a
      throw (a body that is not a form). */
  datatype Request = Form(audio: FormEntry) | FormUnreadable(error: Thrown)

  /** What `transcribeAudio` came to: the transcript text, or a throw. */
  datatype SpeechOutcome = Transcribed(text: string) | SpeechThrew(error: Thrown)

  const NoAudioMessage := "No audio file provided"
  const FailureMessage := "Failed to transcribe audio"
  const UnknownErrorDetails := "Unknown error"

  /** `!audioFile`: an absent entry or an empty text entry. */
  predicate AudioMissing(entry: FormEntry)
  {
    entry.Absent? || entry == TextEntry("")
  }

  /** `details` of the error payload: the message of an `Error`, otherwise
      "Unknown error". */
  function DetailsOf(error: Thrown): string
  {
    match error
    case ErrorThrown(message) => message
    case OtherThrown => UnknownErrorDetails
  }

  function SuccessBody(text: string): Json
  {
    JObject(map["transcription" := JString(text), "success" := JBool(true)])
  }

  function FailureBody(error: Thrown): Json
  {
    JObject(map["error" := JString(FailureMessage), "details" := JString(DetailsOf(error))])
  }

  /** The handler; `speech` is what `transcribeAudio` would do if called. */
  function Post(request: Request, speech: SpeechOutcome): (r: JsonResponse)
    ensures r.status == 200 || r.status == 400 || r.status == 500
    ensures r.status == 400 <==> request.Form? && AudioMissing(request.audio)
    ensures r.status == 200 <==> request.Form? && !AudioMissing(request.audio) && speech.Transcribed?
  {
    match request
    case FormUnreadable(error) => JsonResponse(500, FailureBody(error))
    case Form(audio) =>
      if AudioMissing(audio) then JsonResponse(400, ErrorBody(NoAudioMessage))
      else
        match speech
        case Transcribed(text) => JsonResponse(200, SuccessBody(text))
        case SpeechThrew(error) => JsonResponse(500, FailureBody(error))
  }

  /** A missing `audio` field gives 400 "No audio file provided", and the
      collaborator is not consulted: the answer is the same whatever it would
      have done. */
  lemma PostRejectsMissingAudio(entry: FormEntry, speech1: SpeechOutcome, speech2: SpeechOutcome)
    requires AudioMissing(entry)
    ensures Post(Form(entry), speech1) == Post(Form(entry), speech2) == JsonResponse(400, ErrorBody(NoAudioMessage))
  {
  }

  /** With audio present, the collaborator decides: its text comes back as
      `{ transcription, success: true }` with 200, and its throw as
      `{ error, details }` with 500. */
  lemma PostForwardsSpeechOutcome(entry: FormEntry, speech: SpeechOutcome)
    requires !AudioMissing(entry)
    ensures speech.Transcribed? ==> Post(Form(entry), speech) == JsonResponse(200, SuccessBody(speech.text))
    ensures speech.SpeechThrew? ==> Post(Form(entry), speech) == JsonResponse(500, FailureBody(speech.error))
  {
  }

  /** Every throw, from reading the form or from the collaborator, gives 500
      with error "Failed to transcribe audio" and the Error's message (or
      "Unknown error") as details. The details are empty when the Error's
      message is. */
  lemma PostFailureCarriesDetails(request: Request, speech: SpeechOutcome)
    ensures var r := Post(request, speech);
      r.status == 500 ==>
        && Get(r.body, "error") == Some(JString(FailureMessage))
        && (request.FormUnreadable? ==> Get(r.body, "details") == Some(JString(DetailsOf(request.error))))
        && (request.Form? ==> speech.SpeechThrew? && Get(r.body, "details") == Some(JString(DetailsOf(speech.error))))
    ensures Post(Form(TextEntry("x")), SpeechThrew(ErrorThrown(""))).body.fields["details"] == JString("")
  {
  }

  /** The success and error payloads exclude each other: `success: true`
      appears exactly in the 200 answer, and `error` exactly in the others. */
  lemma PostPayloadsAreExclusive(request: Request, speech: SpeechOutcome)
    ensures var r := Post(request, speech);
      && (r.status == 200 || r.status == 400 || r.status == 500)
      && (Get(r.body, "success") == Some(JBool(true)) <==> r.status == 200)
      && (Get(r.body, "error").Some? <==> r.status != 200)
  {
  }
}
