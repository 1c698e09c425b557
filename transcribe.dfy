/**
 * The speech-to-text endpoint: the ordered checks applied to the uploaded form
 * before the transcription service is called, and the mapping of every outcome
 * to an HTTP response.
 */
module Transcribe {
  import opened Common

  /** The upload limit of the transcription service: 25 MiB. */
  const MAX_AUDIO_BYTES: nat := 25 * 1024 * 1024

  /** The MIME types accepted, compared as exact strings. */
  const SUPPORTED_TYPES: seq<string> := [
    "audio/wav", "audio/mp3", "audio/m4a", "audio/ogg", "audio/webm",
    "audio/webm;codecs=opus", "audio/ogg;codecs=opus", "audio/mp4"]

  datatype AudioFile = AudioFile(name: string, size: nat, mimeType: string)

  /** What `formData.get('audio')` yields: nothing, a plain text field, or a file. */
  datatype FormField = Absent | TextField(text: string) | FileField(file: AudioFile)

  /** Why an upload is refused before the service is called. */
  datatype Rejection = AudioRequired | TooLarge | UnsupportedFormat(shownType: string)

  /** What the transcription service answers. */
  datatype Transcription = Transcription(text: string, language: string, duration: real)

  datatype Body =
    | ErrorBody(error: string)
    | TranscriptBody(text: string, language: string, duration: real)
    | FailureBody(error: string, details: string, kind: string)
    | UnknownFailureBody(error: string, kind: string)

  datatype Response = Response(status: int, body: Body)

  /**
   * The three guards in order: presence (`!audioFile`), size, type. A text field
   * passes the presence check when it is not empty; its `size` and `type` are
   * `undefined`, so the size comparison is false and the type check fails on
   * the string "undefined".
   */
  function Validate(field: FormField): (r: Result<AudioFile, Rejection>)
    ensures r == Failure(AudioRequired) <==> field.Absent? || field == TextField("")
    ensures r.Success? <==>
      field.FileField? && field.file.size <= MAX_AUDIO_BYTES && field.file.mimeType in SUPPORTED_TYPES
    ensures r.Success? ==> r.value == field.file
    ensures r == Failure(TooLarge) <==> field.FileField? && field.file.size > MAX_AUDIO_BYTES
  {
    match field
    case Absent => Failure(AudioRequired)
    case TextField(text) =>
      if text == "" then Failure(AudioRequired) else Failure(UnsupportedFormat("undefined"))
    case FileField(file) =>
      if file.size > MAX_AUDIO_BYTES then Failure(TooLarge)
      else if file.mimeType !in SUPPORTED_TYPES then Failure(UnsupportedFormat(file.mimeType))
      else Success(file)
  }

  /** The 400 response for a refused upload. */
  function RejectionResponse(rejection: Rejection): (r: Response)
    ensures r.status == 400 && r.body.ErrorBody?
  {
    match rejection
    case AudioRequired => Response(400, ErrorBody("Audio file is required"))
    case TooLarge => Response(400, ErrorBody("Audio file too large. Maximum size is 25MB."))
    case UnsupportedFormat(t) =>
      Response(400, ErrorBody("Unsupported audio format: \"" + t
        + "\". Supported formats: WAV, MP3, M4A, OGG, WebM, MP4"))
  }

  /** The 500 response built by the catch block. */
  function CatchResponse(t: Thrown<string>): (r: Response)
    ensures r.status == 500
    ensures t.Threw? ==> r.body == FailureBody("Transcription failed", t.error, "whisper_api_error")
    ensures t.ThrewNonError? ==> r.body == UnknownFailureBody("Unknown transcription error", "unknown_error")
  {
    match t
    case Threw(message) => Response(500, FailureBody("Transcription failed", message, "whisper_api_error"))
    case ThrewNonError => Response(500, UnknownFailureBody("Unknown transcription error", "unknown_error"))
  }

  /**
   * `POST`: `form` is the parsed form data (or what parsing threw), `transcribe`
   * the transcription service as a function of the uploaded file.
   */
  function Post(form: Result<FormField, Thrown<string>>,
                transcribe: AudioFile -> Result<Transcription, Thrown<string>>): (r: Response)
    ensures form.Failure? ==> r == CatchResponse(form.error)
    ensures form.Success? && Validate(form.value).Failure? ==>
      r == RejectionResponse(Validate(form.value).error)
    ensures r.status == 200 <==> form.Success? && Validate(form.value).Success?
                                 && transcribe(form.value.file).Success?
    ensures form.Success? && Validate(form.value).Success? && transcribe(form.value.file).Failure? ==>
      r == CatchResponse(transcribe(form.value.file).error)
    ensures form.Success? && Validate(form.value).Success? && transcribe(form.value.file).Success? ==>
      var t := transcribe(form.value.file).value;
      r.body == TranscriptBody(t.text, t.language, t.duration)
  {
    match form
    case Failure(t) => CatchResponse(t)
    case Success(field) =>
      match Validate(field)
      case Failure(rejection) => RejectionResponse(rejection)
      case Success(file) =>
        match transcribe(file)
        case Failure(t) => CatchResponse(t)
        case Success(tr) => Response(200, TranscriptBody(tr.text, tr.language, tr.duration))
  }

  /** A refused upload never reaches the service: the response is the same whatever the service would do. */
  lemma RejectedUploadSkipsService(field: FormField,
                                   t1: AudioFile -> Result<Transcription, Thrown<string>>,
                                   t2: AudioFile -> Result<Transcription, Thrown<string>>)
    requires Validate(field).Failure?
    ensures Post(Success(field), t1) == Post(Success(field), t2)
  {
  }

  /** The size limit is inclusive: exactly 25 MiB passes the size check, one byte more does not. */
  lemma SizeBoundary(name: string, mimeType: string)
    ensures Validate(FileField(AudioFile(name, 26214400, mimeType))) != Failure(TooLarge)
    ensures Validate(FileField(AudioFile(name, 26214401, mimeType))) == Failure(TooLarge)
  {
  }

  /** Presence is checked first, then size, then type: an oversized file of an unknown type is refused for its size. */
  lemma SizeCheckedBeforeType(name: string, size: nat, mimeType: string)
    requires size > MAX_AUDIO_BYTES && mimeType !in SUPPORTED_TYPES
    ensures Validate(FileField(AudioFile(name, size, mimeType))) == Failure(TooLarge)
  {
  }

  /** The type comparison is exact: no case folding and no parameter stripping. */
  lemma TypeMatchIsExact(name: string, size: nat)
    requires size <= MAX_AUDIO_BYTES
    ensures Validate(FileField(AudioFile(name, size, "audio/WAV"))) == Failure(UnsupportedFormat("audio/WAV"))
    ensures Validate(FileField(AudioFile(name, size, "audio/mp4; codecs=mp4a"))).Failure?
    ensures Validate(FileField(AudioFile(name, size, "audio/webm;codecs=opus"))).Success?
  {
    assert SUPPORTED_TYPES[5] == "audio/webm;codecs=opus";
  }
}
