/** The body of the `try` in `validate_and_prepare_video`
    (functions/spec/validate_and_prepare_video.py): the required-field
    check, the storage lookup, the two OpenShot requests and the extraction
    of the identifiers and metadata from their replies. Storage and the
    OpenShot API are given as their outcomes; the result says which requests
    were sent and either what was prepared or which exception was raised. */
module VideoPrep {
  import opened Values
  import opened Text

  /** The callable request's data: an object with the two fields the handler
      reads, or a value of another JSON type (named by its Python type), on
      which `data.get` raises an AttributeError. */
  datatype VideoRequest =
    | Fields(videoId: Option<string>, userId: Option<string>)
    | NotAnObject(typeName: string)

  /** Both required fields are present and truthy. */
  predicate HasIds(req: VideoRequest) {
    req.Fields? && Present(req.videoId) && Present(req.userId)
  }

  /** A blob in storage; only its public URL is used. */
  datatype Blob = Blob(publicUrl: string)

  /** The outcome of `bucket.get_blob(path)`: no blob, the blob, or the
      exception the storage client raised (which may itself come from the
      requests library, the client's transport). */
  datatype BlobLookup = NoBlob | Found(blob: Blob) | StorageRaised(error: Raised)

  /** The outcome of one OpenShot POST: a request exception (connection
      failure, an error status from `raise_for_status`, or an undecodable
      body), with the text of the response when there was one, or the
      decoded JSON body. */
  datatype HttpOutcome = RequestFailed(detail: string, responseText: Option<string>) | Replied(body: Value)

  /** The project that is created for a video. */
  datatype ProjectRequest = ProjectRequest(
    name: string, width: int, height: int, fpsNum: int, fpsDen: int,
    sampleRate: int, channels: int, channelLayout: int, json: string)

  /** The file that is added to the project: the video's public URL under
      the name `video_{videoId}.mp4`. */
  datatype FileRequest = FileRequest(projectId: Value, url: string, name: string)

  datatype Post = CreateProject(project: ProjectRequest) | CreateFile(file: FileRequest)

  /** An exception raised inside the `try`: one of the requests library's
      exceptions, or any other (a ValueError, a KeyError, ...) with its text. */
  datatype Raised = RequestException(detail: string, responseText: Option<string>) | OtherException(detail: string)

  /** The text of the AttributeError raised by `.get` on a value that is not
      a dict. */
  function NoGetError(typeName: string): string {
    "'" + typeName + "' object has no attribute 'get'"
  }

  /** What a successful attempt prepared. */
  datatype Prepared = Prepared(projectId: Value, fileId: Value, metadata: map<string, Value>)

  datatype Attempt = Attempt(posted: seq<Post>, outcome: Result<Prepared, Raised>)

  const MissingFieldsError := "Missing required fields: videoId and userId are required"
  const BlobMissingError := "Video file not found in storage"

  /** Where the uploaded original of a video is stored. */
  function BlobPath(userId: string, videoId: string): string {
    "videos/" + userId + "/" + videoId + "/openshot/original.mp4"
  }

  /** The path has exactly five components, the user and the video being
      the second and the third. */
  lemma BlobPathComponents(userId: string, videoId: string)
    requires '/' !in userId && '/' !in videoId
    ensures Split(BlobPath(userId, videoId), '/') == ["videos", userId, videoId, "openshot", "original.mp4"]
  {
    var parts := ["videos", userId, videoId, "openshot", "original.mp4"];
    assert Join(parts[4..], '/') == "original.mp4";
    assert Join(parts[3..], '/') == "openshot/original.mp4";
    assert Join(parts[2..], '/') == videoId + "/openshot/original.mp4";
    assert Join(parts[1..], '/') == userId + "/" + videoId + "/openshot/original.mp4";
    assert Join(parts, '/') == BlobPath(userId, videoId);
    SplitJoin(parts, '/');
  }

  /** Distinct (user, video) pairs of slash-free names never share a path. */
  lemma BlobPathInjective(u1: string, v1: string, u2: string, v2: string)
    requires '/' !in u1 && '/' !in v1 && '/' !in u2 && '/' !in v2
    requires BlobPath(u1, v1) == BlobPath(u2, v2)
    ensures u1 == u2 && v1 == v2
  {
    BlobPathComponents(u1, v1);
    BlobPathComponents(u2, v2);
  }

  /** The project parameters for a video. */
  function NewProject(videoId: string): ProjectRequest {
    ProjectRequest("video_" + videoId, 1920, 1080, 30, 1, 44100, 2, 3, "{}")
  }

  /** Python's type name of a JSON value, as exception texts show it. */
  function TypeName(v: Value): string {
    match v
    case Null => "NoneType"
    case Bool(_) => "bool"
    case Int(_) => "int"
    case Real(_) => "float"
    case Str(_) => "str"
    case List(_) => "list"
    case Object(_) => "dict"
  }

  /** `v[key]`: the field of an object, or the text of the KeyError or
      TypeError that Python raises. The KeyError text is `repr(key)`, which
      is the key in single quotes for the two keys the handler reads. */
  function Subscript(v: Value, key: string): (r: Result<Value, string>)
    requires key == "id" || key == "json"
    ensures r.Ok? <==> v.Object? && key in v.fields
    ensures r.Ok? ==> r.value == v.fields[key]
    ensures v.Object? && key !in v.fields ==> r == Err("'" + key + "'")
  {
    match v
    case Object(fields) => if key in fields then Ok(fields[key]) else Err("'" + key + "'")
    case Str(_) => Err("string indices must be integers, not 'str'")
    case List(_) => Err("list indices must be integers or slices, not str")
    case _ => Err("'" + TypeName(v) + "' object is not subscriptable")
  }

  /** `info.get(key)`: the field, or None when absent. */
  function Get(info: map<string, Value>, key: string): Value {
    if key in info then info[key] else Null
  }

  /** How OpenShot's file fields are renamed into the validation metadata:
      (metadata field, OpenShot field). */
  const Renaming: seq<(string, string)> := [
    ("width", "width"), ("height", "height"), ("duration", "duration"),
    ("codec", "vcodec"), ("format", "media_type"), ("bitrate", "video_bit_rate")]

  /** The validation metadata built from the `json` part of OpenShot's file
      reply. */
  function ValidationMetadata(info: map<string, Value>): (m: map<string, Value>)
    ensures m.Keys == set i | 0 <= i < |Renaming| :: Renaming[i].0
    ensures forall i :: 0 <= i < |Renaming| ==> m[Renaming[i].0] == Get(info, Renaming[i].1)
  {
    var m := map[
      "width" := Get(info, "width"),
      "height" := Get(info, "height"),
      "duration" := Get(info, "duration"),
      "codec" := Get(info, "vcodec"),
      "format" := Get(info, "media_type"),
      "bitrate" := Get(info, "video_bit_rate")];
    assert m.Keys == set i | 0 <= i < |Renaming| :: Renaming[i].0 by {
      assert Renaming[0].0 == "width" && Renaming[1].0 == "height" && Renaming[2].0 == "duration";
      assert Renaming[3].0 == "codec" && Renaming[4].0 == "format" && Renaming[5].0 == "bitrate";
    }
    m
  }

  /** The try body, up to (not including) the document update. */
  function TryPrepare(req: VideoRequest, getBlob: string -> BlobLookup, projectReply: HttpOutcome, fileReply: HttpOutcome): (a: Attempt)
    // Data that is not an object, or a falsy id, raises before storage or
    // OpenShot is reached.
    ensures req.NotAnObject? ==> a == Attempt([], Err(OtherException(NoGetError(req.typeName))))
    ensures req.Fields? && !HasIds(req) ==> a == Attempt([], Err(OtherException(MissingFieldsError)))
    // The only storage lookup is the fixed path; a missing blob or a failing
    // lookup raises before anything is sent.
    ensures HasIds(req) && getBlob(BlobPath(req.userId.value, req.videoId.value)).NoBlob? ==>
      a == Attempt([], Err(OtherException(BlobMissingError)))
    ensures HasIds(req) && getBlob(BlobPath(req.userId.value, req.videoId.value)).StorageRaised? ==>
      a == Attempt([], Err(getBlob(BlobPath(req.userId.value, req.videoId.value)).error))
    // Once the blob is found the project is created with fixed parameters,
    // and a failed request or a reply without an id ends the attempt.
    ensures HasIds(req) && getBlob(BlobPath(req.userId.value, req.videoId.value)).Found? ==>
      1 <= |a.posted| <= 2 && a.posted[0] == CreateProject(NewProject(req.videoId.value))
    ensures HasIds(req) && getBlob(BlobPath(req.userId.value, req.videoId.value)).Found? && projectReply.RequestFailed? ==>
      a == Attempt([CreateProject(NewProject(req.videoId.value))],
                   Err(RequestException(projectReply.detail, projectReply.responseText)))
    ensures
      && HasIds(req) && getBlob(BlobPath(req.userId.value, req.videoId.value)).Found?
      && projectReply.Replied? && Subscript(projectReply.body, "id").Err?
      ==>
      a == Attempt([CreateProject(NewProject(req.videoId.value))],
                   Err(OtherException(Subscript(projectReply.body, "id").error)))
    // The file is added exactly when the project reply gives an id, from the
    // blob's public URL.
    ensures |a.posted| == 2 <==>
      && HasIds(req) && getBlob(BlobPath(req.userId.value, req.videoId.value)).Found?
      && projectReply.Replied? && Subscript(projectReply.body, "id").Ok?
    ensures |a.posted| == 2 ==>
      a.posted[1] == CreateFile(FileRequest(
        Subscript(projectReply.body, "id").value,
        getBlob(BlobPath(req.userId.value, req.videoId.value)).blob.publicUrl,
        "video_" + req.videoId.value + ".mp4"))
    // The file reply: a failed request, then the `json` part and the `id`,
    // read in that order.
    ensures |a.posted| == 2 && fileReply.RequestFailed? ==>
      a.outcome == Err(RequestException(fileReply.detail, fileReply.responseText))
    ensures |a.posted| == 2 && fileReply.Replied? && Subscript(fileReply.body, "json").Err? ==>
      a.outcome == Err(OtherException(Subscript(fileReply.body, "json").error))
    ensures
      && |a.posted| == 2 && fileReply.Replied? && Subscript(fileReply.body, "json").Ok?
      && !Subscript(fileReply.body, "json").value.Object?
      ==>
      a.outcome == Err(OtherException(NoGetError(TypeName(Subscript(fileReply.body, "json").value))))
    ensures
      && |a.posted| == 2 && fileReply.Replied? && Subscript(fileReply.body, "json").Ok?
      && Subscript(fileReply.body, "json").value.Object? && Subscript(fileReply.body, "id").Err?
      ==>
      a.outcome == Err(OtherException(Subscript(fileReply.body, "id").error))
    ensures
      && |a.posted| == 2 && fileReply.Replied? && Subscript(fileReply.body, "json").Ok?
      && Subscript(fileReply.body, "json").value.Object? && Subscript(fileReply.body, "id").Ok?
      ==>
      a.outcome == Ok(Prepared(
        Subscript(projectReply.body, "id").value,
        Subscript(fileReply.body, "id").value,
        ValidationMetadata(Subscript(fileReply.body, "json").value.fields)))
    // Request exceptions come only from the storage lookup and the two
    // requests; success needs both replies.
    ensures a.outcome.Err? && a.outcome.error.RequestException? ==>
      || (|a.posted| == 0 && HasIds(req) && getBlob(BlobPath(req.userId.value, req.videoId.value)) == StorageRaised(a.outcome.error))
      || (|a.posted| == 1 && projectReply == RequestFailed(a.outcome.error.detail, a.outcome.error.responseText))
      || (|a.posted| == 2 && fileReply == RequestFailed(a.outcome.error.detail, a.outcome.error.responseText))
    ensures a.outcome.Ok? ==> |a.posted| == 2 && fileReply.Replied?
  {
    if req.NotAnObject? then
      Attempt([], Err(OtherException(NoGetError(req.typeName))))
    else if !HasIds(req) then
      Attempt([], Err(OtherException(MissingFieldsError)))
    else
      var videoId, userId := req.videoId.value, req.userId.value;
      match getBlob(BlobPath(userId, videoId))
      case NoBlob => Attempt([], Err(OtherException(BlobMissingError)))
      case StorageRaised(error) => Attempt([], Err(error))
      case Found(blob) =>
        var project := [CreateProject(NewProject(videoId))];
        match projectReply
        case RequestFailed(detail, text) => Attempt(project, Err(RequestException(detail, text)))
        case Replied(projectBody) =>
          var projectId := Subscript(projectBody, "id");
          if projectId.Err? then Attempt(project, Err(OtherException(projectId.error)))
          else
            var posted := project + [CreateFile(FileRequest(projectId.value, blob.publicUrl, "video_" + videoId + ".mp4"))];
            match fileReply
            case RequestFailed(detail, text) => Attempt(posted, Err(RequestException(detail, text)))
            case Replied(fileBody) =>
              var info := Subscript(fileBody, "json");
              if info.Err? then Attempt(posted, Err(OtherException(info.error)))
              else if !info.value.Object? then
                Attempt(posted, Err(OtherException(NoGetError(TypeName(info.value)))))
              else
                var metadata := ValidationMetadata(info.value.fields);
                var fileId := Subscript(fileBody, "id");
                if fileId.Err? then Attempt(posted, Err(OtherException(fileId.error)))
                else Attempt(posted, Ok(Prepared(projectId.value, fileId.value, metadata)))
  }
}
