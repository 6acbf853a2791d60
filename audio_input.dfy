/** The audio-input component: tab and file state, the clear and file-select
    handlers, and the transcribe handler with its callback protocol and its
    error-message mapping. The recorder, the blob upload and the fetch of
    `/api/transcribe` are collaborators whose outcomes are parameters. */
module AudioInput {
  import opened Js
  import opened Domain
  import TranscribeRoute

  datatype Tab = Record | Upload

  /** One call of a parent callback, in the order the component makes them. */
  datatype Notification =
    | TranscriptionChange(text: string, processing: bool, error: string)
    | AudioReady(ready: bool)

  /** The audio handed to `upload`: the recording (fetched from the recorder's
      blob URL) or the selected file. */
  datatype AudioSource = Recording(blobUrl: string) | Selected(file: AudioFile)

  /** The arguments of the `upload` call. */
  datatype UploadRequest = UploadRequest(fileName: string, source: AudioSource)

  /** What `upload` came to: the stored blob's URL, or a throw. */
  datatype UploadOutcome = Uploaded(url: string) | UploadThrew(error: Thrown)

  /** What the `fetch` of the transcribe route and its `json()` came to: the
      parsed body, or a throw. */
  datatype ReplyOutcome = Replied(body: Json) | ReplyThrew(error: Thrown)

  const RecordedFileName := "recorded-audio.webm"
  const UploadFailedMessage := "Failed to upload audio file. Please try again."
  const TranscribeFailedMessage := "Failed to transcribe audio. Please try again."
  const GenericFailureMessage := "Failed to process audio. Please try again."
  const DefaultReplyError := "Failed to transcribe audio"

  // ---------------------------------------------------------------------------
  // The audio to transcribe
  // ---------------------------------------------------------------------------

  /** `hasAudioToTranscribe`: a (truthy) recording URL on the record tab, or a
      selected file on the upload tab. */
  predicate HasAudio(tab: Tab, recording: Option<string>, file: Option<AudioFile>)
  {
    (tab == Record && recording.Some? && recording.value != "") || (tab == Upload && file.Some?)
  }

  /** The source choice at the top of `handleTranscribe`. */
  function SourceFor(tab: Tab, recording: Option<string>, file: Option<AudioFile>): (r: Option<UploadRequest>)
    ensures r.Some? <==> HasAudio(tab, recording, file)
    ensures r.Some? && tab == Record ==> r.value == UploadRequest(RecordedFileName, Recording(recording.value))
    ensures r.Some? && tab == Upload ==> r.value == UploadRequest(file.value.name, Selected(file.value))
  {
    if tab == Record && recording.Some? && recording.value != "" then Some(UploadRequest(RecordedFileName, Recording(recording.value)))
    else if tab == Upload && file.Some? then Some(UploadRequest(file.value.name, Selected(file.value)))
    else None
  }

  // ---------------------------------------------------------------------------
  // Error messages
  // ---------------------------------------------------------------------------

  predicate StartsWith(s: string, prefix: string)
  {
    |prefix| <= |s| && s[..|prefix|] == prefix
  }

  /** `s.includes(sub)`. */
  predicate Contains(s: string, sub: string)
  {
    StartsWith(s, sub) || (s != [] && Contains(s[1..], sub))
  }

  ghost predicate OccursAt(s: string, sub: string, i: int)
  {
    0 <= i && i + |sub| <= |s| && s[i..i + |sub|] == sub
  }

  /** `sub` is a substring of `s`. */
  ghost predicate Occurs(s: string, sub: string)
  {
    exists i :: OccursAt(s, sub, i)
  }

  lemma {:induction false} ContainsIffOccurs(s: string, sub: string)
    ensures Contains(s, sub) <==> Occurs(s, sub)
  {
    if StartsWith(s, sub) {
      assert OccursAt(s, sub, 0);
    } else if s != [] {
      ContainsIffOccurs(s[1..], sub);
      if Occurs(s[1..], sub) {
        var i :| OccursAt(s[1..], sub, i);
        assert s[1..][i..i + |sub|] == s[i + 1..i + 1 + |sub|];
        assert OccursAt(s, sub, i + 1);
      }
      if Occurs(s, sub) {
        var i :| OccursAt(s, sub, i);
        assert s[..|sub|] == s[0..|sub|];
        if i > 0 {
          assert s[1..][i - 1..i - 1 + |sub|] == s[i..i + |sub|];
          assert OccursAt(s[1..], sub, i - 1);
        }
      }
    }
  }

  /** The catch clause's message: an Error whose message mentions "upload"
      gives the upload message, otherwise one that mentions "transcribe" gives
      the transcribe message; anything else, including a thrown value that is
      not an Error, gives the generic message. */
  function ErrorMessageFor(error: Thrown): (m: string)
    ensures error.ErrorThrown? && Occurs(error.message, "upload") ==> m == UploadFailedMessage
    ensures error.ErrorThrown? && !Occurs(error.message, "upload") && Occurs(error.message, "transcribe")
      ==> m == TranscribeFailedMessage
    ensures error.ErrorThrown? && !Occurs(error.message, "upload") && !Occurs(error.message, "transcribe")
      ==> m == GenericFailureMessage
    ensures error.OtherThrown? ==> m == GenericFailureMessage
  {
    match error
    case OtherThrown => GenericFailureMessage
    case ErrorThrown(message) =>
      ContainsIffOccurs(message, "upload");
      ContainsIffOccurs(message, "transcribe");
      if Contains(message, "upload") then UploadFailedMessage
      else if Contains(message, "transcribe") then TranscribeFailedMessage
      else GenericFailureMessage
  }

  // ---------------------------------------------------------------------------
  // The callback protocol of handleTranscribe
  // ---------------------------------------------------------------------------

  /** The fields the handler reads from the route's JSON (`result.success`,
      `result.transcription`, `result.error`). */
  datatype Reply = Reply(success: bool, transcription: string, error: string)

  function ReadReply(body: Json): Reply
  {
    Reply(Truthy(Get(body, "success")), GetString(body, "transcription"), GetString(body, "error"))
  }

  /** The terminal callback once the transcribe fetch has settled. A `null`
      body makes `result.success` throw a TypeError ("Cannot read properties
      of null"), which mentions neither "upload" nor "transcribe", so the
      catch clause reports the generic message. */
  function ReplyNotification(reply: ReplyOutcome): (n: Notification)
    ensures n.TranscriptionChange? && !n.processing
    ensures n.error == "" <==> reply.Replied? && !reply.body.JNull? && ReadReply(reply.body).success
    ensures n.error == "" ==> n.text == ReadReply(reply.body).transcription
    ensures n.error != "" ==> n.text == ""
    ensures reply.ReplyThrew? ==> n.error == ErrorMessageFor(reply.error)
    ensures reply == Replied(JNull) ==> n.error == GenericFailureMessage
    ensures reply.Replied? && !reply.body.JNull? && !ReadReply(reply.body).success ==>
      n.error == (if ReadReply(reply.body).error != "" then ReadReply(reply.body).error else DefaultReplyError)
  {
    match reply
    case ReplyThrew(error) => TranscriptionChange("", false, ErrorMessageFor(error))
    case Replied(body) =>
      if body.JNull? then TranscriptionChange("", false, GenericFailureMessage)
      else
        var r := ReadReply(body);
        if r.success then TranscriptionChange(r.transcription, false, "")
        else TranscriptionChange("", false, if r.error != "" then r.error else DefaultReplyError)
  }

  /** The terminal callback of one transcription attempt. */
  function TerminalNotification(upload: UploadOutcome, reply: ReplyOutcome): Notification
  {
    match upload
    case UploadThrew(error) => TranscriptionChange("", false, ErrorMessageFor(error))
    case Uploaded(_) => ReplyNotification(reply)
  }

  /** The callbacks `handleTranscribe` makes: none without a source, otherwise
      the processing notice and then the terminal callback. */
  function TranscribeTrace(request: Option<UploadRequest>, upload: UploadOutcome, reply: ReplyOutcome): seq<Notification>
  {
    if request.None? then [] else [TranscriptionChange("", true, ""), TerminalNotification(upload, reply)]
  }

  /** Past the guard there is exactly one processing notice `("", true, "")`
      followed by exactly one terminal notice that is not processing; the
      terminal notice carries an error exactly when the upload, the fetch or
      the route failed, and then its text is empty. */
  lemma TranscribeProtocol(request: Option<UploadRequest>, upload: UploadOutcome, reply: ReplyOutcome)
    ensures var t := TranscribeTrace(request, upload, reply);
      && (request.None? ==> t == [])
      && (request.Some? ==>
            && |t| == 2
            && t[0] == TranscriptionChange("", true, "")
            && t[1].TranscriptionChange? && !t[1].processing
            && (t[1].error == "" <==> upload.Uploaded? && reply.Replied? && !reply.body.JNull? && ReadReply(reply.body).success)
            && (t[1].error != "" ==> t[1].text == ""))
  {
  }

  /** The answers of the transcribe route as the handler reports them: the
      transcript on 200, the route's own error text on 400 and 500. */
  lemma HandlerReadsRouteAnswer(request: TranscribeRoute.Request, speech: TranscribeRoute.SpeechOutcome)
    ensures var r := TranscribeRoute.Post(request, speech);
      var n := ReplyNotification(Replied(r.body));
      && (r.status == 200 ==> speech.Transcribed? && n == TranscriptionChange(speech.text, false, ""))
      && (r.status == 400 ==> n == TranscriptionChange("", false, TranscribeRoute.NoAudioMessage))
      && (r.status == 500 ==> n == TranscriptionChange("", false, TranscribeRoute.FailureMessage))
  {
  }

  /** The handler posts `{ audioUrl }` as JSON, a body the route's
      `request.formData()` cannot read. Whatever the speech collaborator would
      say, the user then sees "Failed to transcribe audio". */
  lemma JsonBodyIsNeverTranscribed(error: Thrown, speech: TranscribeRoute.SpeechOutcome, blobUrl: string)
    ensures TerminalNotification(Uploaded(blobUrl), Replied(TranscribeRoute.Post(TranscribeRoute.FormUnreadable(error), speech).body))
      == TranscriptionChange("", false, DefaultReplyError)
  {
  }

  // ---------------------------------------------------------------------------
  // The component's state and handlers
  // ---------------------------------------------------------------------------

  class Controller {
    var activeTab: Tab
    /** The recorder's `mediaBlobUrl`. */
    var recordingUrl: Option<string>
    var selectedFile: Option<AudioFile>
    /** The object URL of the selected file, for the preview. */
    var audioUrl: Option<string>
    var isUploading: bool
    var isTranscribing: bool
    var uploadProgress: int
    /** Object URLs passed to `URL.revokeObjectURL`, in order. */
    var revokedUrls: seq<string>
    /** Calls of `onTranscriptionChange` and `onAudioReady`, in order. */
    var notifications: seq<Notification>

    /** The upload phase and the transcription phase never overlap, and the
        progress is a percentage that is 0 whenever nothing is in flight. */
    ghost predicate Valid()
      reads this
    {
      && 0 <= uploadProgress <= 100
      && !(isUploading && isTranscribing)
      && (!isUploading && !isTranscribing ==> uploadProgress == 0)
      && audioUrl != Some("")
    }

    /** An upload or a transcription is in flight. */
    predicate Busy()
      reads this
    {
      isUploading || isTranscribing
    }

    predicate HasAudioToTranscribe()
      reads this
    {
      HasAudio(activeTab, recordingUrl, selectedFile)
    }

    /** The transcribe button is shown when there is audio and disabled while
        an upload or transcription is in flight. */
    predicate TranscribeEnabled()
      reads this
    {
      HasAudioToTranscribe() && !Busy()
    }

    constructor ()
      ensures Valid()
      ensures activeTab == Upload && recordingUrl == None && selectedFile == None && audioUrl == None
      ensures !isUploading && !isTranscribing && uploadProgress == 0
      ensures revokedUrls == [] && notifications == []
    {
      activeTab := Upload;
      recordingUrl, selectedFile, audioUrl := None, None, None;
      isUploading, isTranscribing, uploadProgress := false, false, 0;
      revokedUrls, notifications := [], [];
    }

    /** A click on one of the two tab buttons. */
    method SelectTab(tab: Tab)
      modifies this`activeTab
      ensures activeTab == tab
    {
      activeTab := tab;
    }

    /** The recorder delivers a recording URL; the effect on `mediaBlobUrl`
        reports audio as ready when the URL is truthy. */
    method RecordingAvailable(url: string)
      modifies this`recordingUrl, this`notifications
      ensures recordingUrl == Some(url)
      ensures notifications == old(notifications) + (if url != "" then [AudioReady(true)] else [])
    {
      recordingUrl := Some(url);
      if url != "" {
        notifications := notifications + [AudioReady(true)];
      }
    }

    /** `handleFileSelect`: with a file, select it, keep its object URL (which
        `URL.createObjectURL` makes, never empty) and report
        `("", false, "")` and then audio ready; with no file, do nothing. */
    method HandleFileSelect(file: Option<AudioFile>, objectUrl: string)
      requires Valid() && objectUrl != ""
      modifies this`selectedFile, this`audioUrl, this`notifications
      ensures Valid()
      ensures file.Some? ==>
        && selectedFile == file && audioUrl == Some(objectUrl)
        && notifications == old(notifications) + [TranscriptionChange("", false, ""), AudioReady(true)]
      ensures file.None? ==> unchanged(this)
    {
      if file.Some? {
        selectedFile := file;
        audioUrl := Some(objectUrl);
        notifications := notifications + [TranscriptionChange("", false, ""), AudioReady(true)];
      }
    }

    /** `handleClear`: drop the recording and the selected file, revoke the
        object URL if there is one, and report `("", false, "")` and then no
        audio. */
    method HandleClear()
      requires Valid()
      modifies this`recordingUrl, this`selectedFile, this`audioUrl, this`revokedUrls, this`notifications
      ensures Valid()
      ensures recordingUrl == None && selectedFile == None && audioUrl == None
      ensures revokedUrls == old(revokedUrls) + (if old(audioUrl).Some? then [old(audioUrl).value] else [])
      ensures notifications == old(notifications) + [TranscriptionChange("", false, ""), AudioReady(false)]
      ensures !HasAudioToTranscribe()
    {
      recordingUrl := None;
      selectedFile := None;
      if audioUrl.Some? {
        revokedUrls := revokedUrls + [audioUrl.value];
        audioUrl := None;
      }
      notifications := notifications + [TranscriptionChange("", false, ""), AudioReady(false)];
    }

    /** The synchronous start of `handleTranscribe`, up to the `upload` call.
        Without a source for the active tab nothing changes and nothing is
        reported. The caller is the transcribe button, which is disabled while
        anything is in flight. */
    method BeginTranscribe() returns (request: Option<UploadRequest>)
      requires Valid() && !Busy()
      modifies this`isUploading, this`uploadProgress, this`notifications
      ensures Valid()
      ensures request == SourceFor(activeTab, recordingUrl, selectedFile)
      ensures old(TranscribeEnabled()) ==> request.Some?
      ensures request.None? ==> unchanged(this)
      ensures request.Some? ==>
        && isUploading && !isTranscribing && uploadProgress == 0
        && notifications == old(notifications) + [TranscriptionChange("", true, "")]
    {
      request := SourceFor(activeTab, recordingUrl, selectedFile);
      if request.Some? {
        isUploading := true;
        uploadProgress := 0;
        notifications := notifications + [TranscriptionChange("", true, "")];
      }
    }

    /** An `onUploadProgress` report, as a rounded percentage. */
    method UploadProgressed(percentage: int)
      requires Valid() && isUploading && 0 <= percentage <= 100
      modifies this`uploadProgress
      ensures Valid() && uploadProgress == percentage
    {
      uploadProgress := percentage;
    }

    /** The `upload` call settles: on success the transcription phase starts;
        on a throw the mapped message is reported and the finally clause
        clears both flags and the progress. */
    method UploadSettled(upload: UploadOutcome)
      requires Valid() && isUploading
      modifies this`isUploading, this`isTranscribing, this`uploadProgress, this`notifications
      ensures Valid() && !isUploading
      ensures upload.Uploaded? ==>
        isTranscribing && uploadProgress == old(uploadProgress) && notifications == old(notifications)
      ensures upload.UploadThrew? ==>
        && !isTranscribing && uploadProgress == 0
        && notifications == old(notifications) + [TranscriptionChange("", false, ErrorMessageFor(upload.error))]
    {
      match upload
      case Uploaded(_) =>
        isUploading := false;
        isTranscribing := true;
      case UploadThrew(error) =>
        notifications := notifications + [TranscriptionChange("", false, ErrorMessageFor(error))];
        isUploading, isTranscribing, uploadProgress := false, false, 0;
    }

    /** The transcribe fetch settles: the terminal notice is reported and the
        finally clause clears both flags and the progress. */
    method ReplySettled(reply: ReplyOutcome)
      requires Valid() && isTranscribing
      modifies this`isUploading, this`isTranscribing, this`uploadProgress, this`notifications
      ensures Valid() && !Busy() && uploadProgress == 0
      ensures notifications == old(notifications) + [ReplyNotification(reply)]
    {
      notifications := notifications + [ReplyNotification(reply)];
      isUploading, isTranscribing, uploadProgress := false, false, 0;
    }

    /** `handleTranscribe` as one step: the notices are those of
        `TranscribeTrace`, and on every path past the guard both flags end
        false and the progress 0. Nothing else changes. */
    method HandleTranscribe(upload: UploadOutcome, reply: ReplyOutcome) returns (request: Option<UploadRequest>)
      requires Valid() && !Busy()
      modifies this`isUploading, this`isTranscribing, this`uploadProgress, this`notifications
      ensures Valid() && !Busy() && uploadProgress == 0
      ensures request == SourceFor(activeTab, recordingUrl, selectedFile)
      ensures notifications == old(notifications) + TranscribeTrace(request, upload, reply)
    {
      request := BeginTranscribe();
      if request.Some? {
        UploadSettled(upload);
        if upload.Uploaded? {
          ReplySettled(reply);
        }
      }
    }
  }
}
