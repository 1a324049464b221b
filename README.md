# Transcription and video-preparation handlers, modelled in Dafny

This project models the two live request handlers of the media pipeline's
cloud functions:

- `transcribe_to_midi` turns a time range of an audio track into a MIDI
  file. It validates the composite `trackId` (`videoId/audioTrackId`) and
  looks up the track's master playlist URL. Then it downloads and decodes the
  audio, applies the time-range slicer and runs the pitch-transcription model.
  It answers with the MIDI data and the reported time range, or with a 400,
  404 or 500 error.
- `validate_and_prepare_video` checks that a video's uploaded original exists
  in storage. It creates an OpenShot project for it, adds the file, and records
  the outcome in the video's document with exactly one `update`. That update
  holds the `pending` status, metadata and OpenShot identifiers on success, or
  the `failed` status and a classified error otherwise.

Every external collaborator is an input of the model, given as its outcome:
the document store, the downloader, the audio library, the transcription
model, cloud storage and the OpenShot API. In `Transcribe.Env` the
collaborators are functions of what the handler passes them. So the contracts
can say which collaborator was reached, and with what input.

Modules:

- `Values`: optional fields, results and JSON-shaped values.
- `Text`: Python's `str.split` and `str.join` on one separator.
- `TrackIds`: parsing `videoId/audioTrackId`.
- `Ascii`: the filter applied to error text.
- `TimeRange`: the slicer and the reported range.
- `Transcribe`: the transcription handler.
- `VideoPrep`: the pure part of the video handler's `try` body.
- `VideoStore`: the `videos` collection as a class. Its handler method
  performs the single update.

Times are bounds in seconds as the JSON decoder produces them: an int, a
finite float held as a real number, or a non-finite float. The conversion to
milliseconds is `int(t * 1000)`. It truncates toward zero and does not round
(`TimeRange.Truncate`). It raises when the float product is infinite or not a
number (`TimeRange.Millis`). The video handler writes its failure update even
when `videoId` or `userId` is missing
(functions/spec/validate_and_prepare_video.py:30-31,128-133), and the model
does the same.

## Model

| member | source | states |
|---|---|---|
| `Text.Split` | functions/spec/transcribe.py:67 | `split('/')` yields one more piece than there are separators, and no piece contains the separator |
| `Text.JoinSplit` | functions/spec/transcribe.py:67 | joining the pieces of a split with the separator gives back the original string |
| `Text.SplitJoin` | functions/spec/transcribe.py:67 | splitting a join of separator-free pieces gives back exactly those pieces |
| `TrackIds.ParseTrackId` | functions/spec/transcribe.py:65-76 | parsing succeeds iff the identifier contains exactly one `/`; on success `videoId + "/" + audioTrackId` is the identifier and neither half contains `/` |
| `TrackIds.FormatThenParse` | functions/spec/transcribe.py:66-67 | an identifier built from two slash-free names parses back into those names |
| `Ascii.AsciiOnly` | functions/spec/transcribe.py:247 | the filtered message is no longer than the original and holds only characters with code below 128 |
| `Ascii.AsciiOnlyAppend` | functions/spec/transcribe.py:247 | the filter distributes over concatenation, so retained characters keep their order |
| `Ascii.AsciiOnlyCounts` | functions/spec/transcribe.py:260 | each ASCII character keeps its number of occurrences and every other character is dropped |
| `Ascii.AsciiOnlyIdentity` | functions/spec/transcribe.py:260 | the filter leaves a string unchanged exactly when every character is ASCII |
| `Ascii.AsciiOnlyIdempotent` | functions/spec/transcribe.py:247 | filtering twice equals filtering once |
| `TimeRange.Truncate` | functions/spec/transcribe.py:160-161 | `int()` on a float truncates toward zero: the result is within one of the input, on the input's side of zero |
| `TimeRange.Millis` | functions/spec/transcribe.py:160-161 | `int(t * 1000)` is exact on an int bound. On a float it is the truncated product exactly when the product is finite. An infinite product raises "cannot convert float infinity to integer" and NaN raises "cannot convert float NaN to integer" |
| `TimeRange.StartMs` | functions/spec/transcribe.py:160-165 | the start is 0 when absent. Otherwise it fails exactly when the conversion fails, with the conversion's error, and else is the converted milliseconds raised to 0 when negative |
| `TimeRange.EndMs` | functions/spec/transcribe.py:161-167 | the end is the clip length when absent. Otherwise it fails exactly when the conversion fails, with the conversion's error, and else is the converted milliseconds lowered to the clip length and never raised |
| `TimeRange.Sliced` | functions/spec/transcribe.py:157-179 | with no bound the audio is unchanged. Otherwise a failing conversion, the start's before the end's, is reported with its error. The range is rejected iff the clamped start is not before the clamped end. On success `0 <= start < end <= len` and the clip is `audio[start..end]`, of length `end - start`, with the original being prefix + clip + suffix |
| `TimeRange.SliceRange` | functions/spec/transcribe.py:157-179 | the step-by-step conversion and clamping of the handler yields exactly `Sliced` |
| `TimeRange.OrderedBoundsPastEndRejected` | functions/spec/transcribe.py:164-176 | finite raw bounds in order are still rejected when the start lies at or past the end of the audio |
| `TimeRange.OverflowingEndRaises` | functions/spec/transcribe.py:161-193 | an end whose float milliseconds overflow is not clamped to the clip; its conversion raises the infinity error |
| `TimeRange.ReportRange` | functions/spec/transcribe.py:227-230 | the reported start is the raw start, or the int 0 if absent. The reported end is the raw unclamped end, or the float duration of the sliced clip if absent |
| `TimeRange.OpenEndedReportPrecedesStart` | functions/spec/transcribe.py:227-230 | with a finite start past the middle of the audio and no end, slicing succeeds and the reported end (the clip's duration) is smaller than the reported start |
| `TimeRange.HugeWholeEndClampedButUnreportable` | functions/spec/transcribe.py:161-236 | an int end too large for a float converts and is clamped to the clip without error, but the reported range it gives cannot be formatted |
| `Transcribe.TranscribeToMidi` | functions/spec/transcribe.py:24-268 | a ValueError while reading the body, a missing trackId and a malformed trackId are 400s. Any other exception while reading the body is an ASCII-filtered 500 from the outer handler. In all these cases no collaborator is called. Exactly the parsed track is looked up. A missing track or falsy URL is a 404 with no download. Only the master URL is downloaded. Download, decoding, bound conversion, saving and model failures are 500s, with model and lookup detail ASCII-filtered. An empty clamped range is a 400, and the model is never invoked after a conversion failure or an empty range. The model receives exactly the sliced clip. When the MIDI is produced, a reported int bound too large for a float is a 500 "Error generating MIDI: int too large to convert to float"; otherwise, and only then, success returns the MIDI with the reported range |
| `Transcribe.IntTooLargeErrorUnfiltered` | functions/spec/transcribe.py:244-247 | the ASCII filter of the model step's handler leaves the formatting error's text unchanged |
| `VideoPrep.BlobPathComponents` | functions/spec/validate_and_prepare_video.py:34 | the storage path is `videos/{userId}/{videoId}/openshot/original.mp4`, five components with the user and video second and third |
| `VideoPrep.BlobPathInjective` | functions/spec/validate_and_prepare_video.py:34 | distinct slash-free (user, video) pairs never share a storage path |
| `VideoPrep.Subscript` | functions/spec/validate_and_prepare_video.py:59 | for the keys `id` and `json`, `v[key]` succeeds iff `v` is an object holding `key`. A missing key raises a KeyError whose text is the quoted key |
| `VideoPrep.ValidationMetadata` | functions/spec/validate_and_prepare_video.py:80-87 | the metadata has exactly the fields width, height, duration, codec, format and bitrate. Each one holds OpenShot's width, height, duration, vcodec, media_type or video_bit_rate, and None when that field is absent |
| `VideoPrep.TryPrepare` | functions/spec/validate_and_prepare_video.py:24-87 | data that is not an object raises the AttributeError of `.get`, and a falsy videoId or userId raises "Missing required fields", both before storage or OpenShot is reached. The only storage lookup is the fixed path: a missing blob raises "Video file not found in storage", and a failing lookup raises its own exception, all before anything is sent. Otherwise the project is created with 1920x1080, 30/1 fps, 44100 Hz, 2 channels and layout 3, and a failed project request is a request exception. The file is added exactly when the project reply has an id, from the blob's public URL; a failed file request is a request exception. Then the file reply's `json` is read before its `id`, and each missing or malformed part raises its own error. Replies with both parts succeed with the project id, the file id and the renamed metadata |
| `VideoStore.OpenShotMessage` | functions/spec/validate_and_prepare_video.py:109-111 | the message starts with "OpenShot API error: " and carries the response text after " - " when there is a response |
| `VideoStore.ProcessingMessage` | functions/spec/validate_and_prepare_video.py:125 | the message starts with "Error processing video: " |
| `VideoStore.Merged` | functions/spec/validate_and_prepare_video.py:91-98 | an update replaces the top-level fields it names and keeps every other field of the document |
| `VideoStore.VideoCollection.Update` | functions/spec/validate_and_prepare_video.py:90-91 | one update call is logged and the document becomes the merge of its old fields with the new ones |
| `VideoStore.VideoCollection.ValidateAndPrepareVideo` | functions/spec/validate_and_prepare_video.py:12-135 | exactly one update on every path, on `videos/{videoId}`, or on the document None when the data is not an object. Success writes `pending`, the metadata and the OpenShot ids, and returns the same values. A request error writes `failed`/`invalid_format` with `[message]` and raises failed-precondition; in particular a failed project request does. Any other error writes `failed`/`processing_failed` with `[message]` and raises internal. Missing fields, a missing blob and data that is not an object are internal errors with their exact messages |
| `VideoStore.VideoIdAsWritten` | functions/spec/validate_and_prepare_video.py:24-28 | as written, `video_id` is unbound in the except clauses exactly when the data is not an object, and otherwise is the request's `videoId` |
| `VideoStore.NonObjectDataUnrecordedAsWritten` | functions/spec/validate_and_prepare_video.py:24-28 | data that is not an object reaches the generic except clause with the AttributeError of `.get`, while `video_id` is unbound there as written |
| `VideoStore.VideoId` | functions/spec/validate_and_prepare_video.py:24-28 | with `video_id` bound to None before the `try`, the failure is recorded on the request's `videoId` once the data is read, and on the document None otherwise |

## Findings

| source | as written | input that shows it | evidently intended | confidence | as-written member | corrected member |
|---|---|---|---|---|---|---|
| functions/spec/validate_and_prepare_video.py:26-27 | `video_id` is first assigned inside the `try`, from `data.get`, and both except clauses read it to choose the document they update | callable data `[]` or `null`: `data.get` raises AttributeError, then `document(video_id)` in the except clause raises UnboundLocalError, so no failure is recorded and no HttpsError is raised | `video_id` bound to None before the `try`, so every failure is recorded with one update and reported as an `internal` HttpsError, as on the missing-fields path | medium; not executed | `VideoStore.VideoIdAsWritten` (shown by `VideoStore.NonObjectDataUnrecordedAsWritten`) | `VideoStore.VideoId` (used by `VideoStore.VideoCollection.ValidateAndPrepareVideo`) |

## Left out

- Media download (yt_dlp), WAV decoding and export (pydub), the basic-pitch
  model and reading its output file are given as outcomes in `Transcribe.Env`;
  the temporary directory and its cleanup are not modelled.
- Base64 encoding of the MIDI bytes (RFC 4648 section 4) is a library call;
  the model returns the bytes.
- The text of the response `filename`, the `timestamp` from the clock, the
  JSON serialisation and the headers are not modelled. Of the `.1f`
  formatting of the bounds in the file name, only its failure on int bounds
  too large for a float is modelled.
- Floating point: a finite float product `t * 1000` is exact on reals, so the
  rounding that can precede the truncation is not modelled. Overflow to
  infinity and NaN are modelled.
- TimeRange.ReportRange: pydub's `duration_seconds` (frames / frame rate) is
  taken as the clip's length in milliseconds divided by 1000.
- Transcribe.TranscribeToMidi: the text of an exception raised while reading
  the request body is an input (`BodyRaised`); Werkzeug's wording of it is not
  modelled.
- A `trackId` that is not a string and `startTime`/`endTime` values that are
  booleans, strings or other non-numbers are not modelled. Neither are
  `videoId`/`userId` values that are not strings.
- VideoPrep.Subscript: the wording of Python's TypeError for subscripting a
  non-object reply follows current CPython and may differ between versions.
- VideoStore.VideoCollection.ValidateAndPrepareVideo: follows the corrected
  binding of `video_id` (see Findings). As written, data that is not an
  object ends in an UnboundLocalError with no update, which
  `VideoStore.VideoIdAsWritten` records.
- The document store's own failures are not modelled: the handler assumes
  `update` succeeds. Firestore raises NotFound on a missing document, and
  `document(None)` draws a generated id. The store is keyed by the raw,
  possibly absent, `videoId`.
- The OpenShot base URL and headers (functions/spec/config.py) and the project
  URL string sent with the file request are not modelled; the file request
  carries the raw project id.
- The mapping of `HttpsError` codes to HTTP statuses is done by the framework
  and is not modelled.
- The audio-separation function (functions/spec/extract_audio_and_split.py)
  is a stub that returns a fixed message; its pipeline exists only in
  comments and is not modelled. The health check, functions/main.py and the
  command-line tool functions/audio_test.py are not part of this model.
- Logging (`print`) is not modelled.
