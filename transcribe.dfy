/** The MIDI transcription request handler `transcribe_to_midi`
    (functions/spec/transcribe.py). The document store, the downloader,
    the audio library and the pitch-transcription model are collaborators
    whose outcomes are given as functions in an `Env`; what remains is the
    handler's decision procedure: which step runs, with what input, and
    which response each outcome produces. */
module Transcribe {
  import opened Values
  import opened TrackIds
  import opened Ascii
  import opened TimeRange

  newtype byte = x: int | 0 <= x < 256

  /** The request body as the handler reads it. Reading the body and its
      fields may raise a ValueError, which the handler answers itself, or
      any other exception, which reaches the outer handler: under Flask a
      malformed body raises Werkzeug's BadRequest, a non-JSON content type
      UnsupportedMediaType, and a body that is not an object an
      AttributeError from `.get`. Otherwise the three optional fields are
      read. */
  datatype Request =
    | BodyValueError
    | BodyRaised(detail: string)
    | Fields(trackId: Option<string>, startTime: Option<Seconds>, endTime: Option<Seconds>)

  /** Reading the track document `videos/{videoId}/audioTracks/{audioTrackId}`. */
  datatype TrackLookup =
    | TrackMissing
    | TrackFound(masterPlaylistUrl: Option<string>)
    | LookupRaised(detail: string)

  /** A failed download; `stderr`/`stdout` are present when the exception
      carries the transcoder's output. */
  datatype DownloadError = DownloadError(message: string, stderr: Option<string>, stdout: Option<string>)

  /** Decoding the downloaded file as WAV audio. */
  datatype Decoding = Decoded(audio: Audio) | Undecodable(detail: string)

  datatype Download = DownloadFailed(error: DownloadError) | Downloaded(wav: Decoding)

  /** Writing the clip that will be transcribed back to a WAV file. */
  datatype Export = Exported | ExportFailed(detail: string)

  /** Running the model and reading the MIDI file it should have written. */
  datatype Transcription = ModelRaised(detail: string) | NoMidiFile | Midi(bytes: seq<byte>)

  /** The outcomes of the external collaborators, as functions of what the
      handler hands them. */
  datatype Env = Env(
    lookup: (string, string) -> TrackLookup,
    download: string -> Download,
    saveWav: Audio -> Export,
    predict: Audio -> Transcription)

  /** The HTTP response: a MIDI artifact with the reported time range, or an
      error status with its message. */
  datatype Response =
    | Success(midi: seq<byte>, timeRange: ReportedRange)
    | Failure(status: int, error: string)

  /** Which collaborators the handler reached, and with what: the track it
      looked up, the URL it downloaded, and the clip it gave the model. */
  datatype Trace = Trace(lookedUp: Option<TrackRef>, fetched: Option<string>, modelInput: Option<Audio>)

  const NoCalls := Trace(None, None, None)

  const InvalidJsonError := "Invalid JSON in request body"
  const MissingTrackIdError := "Missing required field: trackId"
  const BadTrackIdError := "Invalid trackId format. Expected format: videoId/audioTrackId"
  const MissingUrlError := "Master playlist URL not found in track data"
  const InvalidRangeError := "Invalid time range: start_time must be less than end_time"
  const NoMidiError := "MIDI file generation failed - output file not found"
  const DownloadPrefix := "Error downloading audio: "
  const SegmentPrefix := "Error processing audio segment: "
  const ModelPrefix := "Error generating MIDI: "
  const OuterPrefix := "Error processing transcription: "

  function TrackNotFoundError(t: TrackRef): string {
    "Audio track " + t.audioTrackId + " not found in video " + t.videoId
  }

  /** The download error text with the transcoder's output appended. */
  function DownloadDetail(e: DownloadError): string {
    e.message
    + (if e.stderr.Some? then "\nFFmpeg stderr: " + e.stderr.value else "")
    + (if e.stdout.Some? then "\nFFmpeg stdout: " + e.stdout.value else "")
  }

  /** The track a well-formed request names. */
  function Target(req: Request): Option<TrackRef> {
    if req.Fields? && Present(req.trackId) then ParseTrackId(req.trackId.value) else None
  }

  /** The master playlist URL of a track document, when it exists and is truthy. */
  function MasterUrl(t: TrackLookup): Option<string> {
    if t.TrackFound? && Present(t.masterPlaylistUrl) then Some(t.masterPlaylistUrl.value) else None
  }

  // The outcome of each collaborator for a request, when the handler gets
  // as far as calling it.

  function LookupOf(req: Request, env: Env): Option<TrackLookup> {
    if Target(req).Some? then Some(env.lookup(Target(req).value.videoId, Target(req).value.audioTrackId)) else None
  }

  function UrlOf(req: Request, env: Env): Option<string> {
    if LookupOf(req, env).Some? then MasterUrl(LookupOf(req, env).value) else None
  }

  function DownloadOf(req: Request, env: Env): Option<Download> {
    if UrlOf(req, env).Some? then Some(env.download(UrlOf(req, env).value)) else None
  }

  function AudioOf(req: Request, env: Env): Option<Audio> {
    var d := DownloadOf(req, env);
    if d.Some? && d.value.Downloaded? && d.value.wav.Decoded? then Some(d.value.wav.audio) else None
  }

  function SliceOf(req: Request, env: Env): Option<Slice> {
    if AudioOf(req, env).Some? then Some(Sliced(AudioOf(req, env).value, req.startTime, req.endTime)) else None
  }

  function ClipOf(req: Request, env: Env): Option<Audio> {
    if SliceOf(req, env).Some? && SliceOf(req, env).value.Clip? then Some(SliceOf(req, env).value.audio) else None
  }

  /** The filter the model step's handler applies leaves the formatting
      error's text as it is. */
  lemma IntTooLargeErrorUnfiltered()
    ensures AsciiOnly(IntTooLargeError) == IntTooLargeError
  {
    var t := IntTooLargeError;
    assert AllAscii(t) by {
      forall i | 0 <= i < |t| ensures IsAscii(t[i]) {
        assert t[i] in "int too large to convert to float";
      }
    }
    AsciiOnlyIdentity(t);
  }

  method TranscribeToMidi(req: Request, env: Env) returns (resp: Response, trace: Trace)
    // Request validation comes first and touches nothing.
    ensures req.BodyValueError? ==> resp == Failure(400, InvalidJsonError) && trace == NoCalls
    ensures req.BodyRaised? ==> resp == Failure(500, OuterPrefix + AsciiOnly(req.detail)) && trace == NoCalls
    ensures req.Fields? && !Present(req.trackId) ==>
      resp == Failure(400, MissingTrackIdError) && trace == NoCalls
    ensures req.Fields? && Present(req.trackId) && ParseTrackId(req.trackId.value).None? ==>
      resp == Failure(400, BadTrackIdError) && trace == NoCalls
    // Exactly the track a well-formed identifier names is looked up.
    ensures trace.lookedUp == Target(req)
    ensures trace.lookedUp.Some? ==>
      && req.Fields? && Present(req.trackId)
      && trace.lookedUp.value.videoId + "/" + trace.lookedUp.value.audioTrackId == req.trackId.value
    // A failing lookup is reported with ASCII-only detail.
    ensures LookupOf(req, env).Some? && LookupOf(req, env).value.LookupRaised? ==>
      resp == Failure(500, OuterPrefix + AsciiOnly(LookupOf(req, env).value.detail))
    // A missing track or a falsy URL is a 404 and nothing is downloaded.
    ensures LookupOf(req, env) == Some(TrackMissing) ==>
      resp == Failure(404, TrackNotFoundError(Target(req).value))
    ensures LookupOf(req, env).Some? && LookupOf(req, env).value.TrackFound? && UrlOf(req, env).None? ==>
      resp == Failure(404, MissingUrlError)
    ensures resp.Failure? && resp.status == 404 ==> trace.lookedUp.Some? && trace.fetched.None?
    // The download is of the track's master playlist URL, and only of it.
    ensures trace.fetched == UrlOf(req, env)
    ensures DownloadOf(req, env).Some? && DownloadOf(req, env).value.DownloadFailed? ==>
      resp == Failure(500, DownloadPrefix + DownloadDetail(DownloadOf(req, env).value.error))
    ensures
      && DownloadOf(req, env).Some? && DownloadOf(req, env).value.Downloaded?
      && DownloadOf(req, env).value.wav.Undecodable?
      ==>
      resp == Failure(500, SegmentPrefix + DownloadOf(req, env).value.wav.detail)
    // A bound that cannot be converted is a 500, an empty clamped range a
    // 400, and in neither case is the model invoked.
    ensures SliceOf(req, env).Some? && SliceOf(req, env).value.Unconvertible? ==>
      resp == Failure(500, SegmentPrefix + SliceOf(req, env).value.detail) && trace.modelInput.None?
    ensures SliceOf(req, env) == Some(InvalidRange) ==>
      resp == Failure(400, InvalidRangeError) && trace.modelInput.None?
    ensures resp == Failure(400, InvalidRangeError) ==> SliceOf(req, env) == Some(InvalidRange)
    // The clip that is saved is the one the model transcribes.
    ensures ClipOf(req, env).Some? && env.saveWav(ClipOf(req, env).value).ExportFailed? ==>
      resp == Failure(500, SegmentPrefix + env.saveWav(ClipOf(req, env).value).detail)
    ensures trace.modelInput ==
      if ClipOf(req, env).Some? && env.saveWav(ClipOf(req, env).value) == Exported
      then ClipOf(req, env) else None
    // Model failures are 500s with ASCII-only detail; success reports the range.
    ensures trace.modelInput.Some? && env.predict(trace.modelInput.value).ModelRaised? ==>
      resp == Failure(500, ModelPrefix + AsciiOnly(env.predict(trace.modelInput.value).detail))
    ensures trace.modelInput.Some? && env.predict(trace.modelInput.value).NoMidiFile? ==>
      resp == Failure(500, NoMidiError)
    // A reported int bound too large for a float makes the file name's
    // formatting raise, inside the model step's handler (whose ASCII filter
    // leaves that text unchanged).
    ensures
      && trace.modelInput.Some? && env.predict(trace.modelInput.value).Midi?
      && !Reportable(ReportRange(req.startTime, req.endTime, trace.modelInput.value))
      ==>
      resp == Failure(500, ModelPrefix + IntTooLargeError)
    ensures resp.Success? <==>
      && trace.modelInput.Some? && env.predict(trace.modelInput.value).Midi?
      && Reportable(ReportRange(req.startTime, req.endTime, trace.modelInput.value))
    ensures resp.Success? ==>
      && env.predict(trace.modelInput.value) == Midi(resp.midi)
      && resp.timeRange == ReportRange(req.startTime, req.endTime, trace.modelInput.value)
    ensures resp.Failure? ==> resp.status in {400, 404, 500}
  {
    trace := NoCalls;
    if req.BodyValueError? {
      return Failure(400, InvalidJsonError), trace;
    }
    if req.BodyRaised? {
      return Failure(500, OuterPrefix + AsciiOnly(req.detail)), trace;
    }
    var trackId, startTime, endTime := req.trackId, req.startTime, req.endTime;
    if trackId.None? || trackId.value == "" {
      return Failure(400, MissingTrackIdError), trace;
    }
    var parsed := ParseTrackId(trackId.value);
    if parsed.None? {
      return Failure(400, BadTrackIdError), trace;
    }
    var track := parsed.value;

    trace := trace.(lookedUp := Some(track));
    var found := env.lookup(track.videoId, track.audioTrackId);
    if found.LookupRaised? {
      return Failure(500, OuterPrefix + AsciiOnly(found.detail)), trace;
    }
    if found.TrackMissing? {
      return Failure(404, TrackNotFoundError(track)), trace;
    }
    var masterUrl := found.masterPlaylistUrl;
    if masterUrl.None? || masterUrl.value == "" {
      return Failure(404, MissingUrlError), trace;
    }

    trace := trace.(fetched := Some(masterUrl.value));
    var downloaded := env.download(masterUrl.value);
    if downloaded.DownloadFailed? {
      return Failure(500, DownloadPrefix + DownloadDetail(downloaded.error)), trace;
    }
    if downloaded.wav.Undecodable? {
      return Failure(500, SegmentPrefix + downloaded.wav.detail), trace;
    }
    var audio := downloaded.wav.audio;
    var sliced := SliceRange(audio, startTime, endTime);
    if sliced.Unconvertible? {
      return Failure(500, SegmentPrefix + sliced.detail), trace;
    }
    if sliced.InvalidRange? {
      return Failure(400, InvalidRangeError), trace;
    }
    audio := sliced.audio;
    var exported := env.saveWav(audio);
    if exported.ExportFailed? {
      return Failure(500, SegmentPrefix + exported.detail), trace;
    }

    trace := trace.(modelInput := Some(audio));
    var midi := env.predict(audio);
    match midi {
      case ModelRaised(detail) =>
        resp := Failure(500, ModelPrefix + AsciiOnly(detail));
      case NoMidiFile =>
        resp := Failure(500, NoMidiError);
      case Midi(bytes) =>
        var timeRange := ReportRange(startTime, endTime, audio);
        if !Reportable(timeRange) {
          resp := Failure(500, ModelPrefix + IntTooLargeError);
        } else {
          resp := Success(bytes, timeRange);
        }
    }
  }
}
