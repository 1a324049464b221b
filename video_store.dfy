/** The `videos` document collection and the handler
    `validate_and_prepare_video` (functions/spec/validate_and_prepare_video.py),
    whose one effect on the collection is a single `update` of the video's
    document on every path: the prepared OpenShot identifiers and metadata on
    success, a failure status and its classification otherwise. */
module VideoStore {
  import opened Values
  import opened VideoPrep

  /** One call of `update` on `videos/{videoId}`; the id is the raw request
      field, which may be absent on the missing-fields path. */
  datatype DocUpdate = DocUpdate(videoId: Option<string>, fields: map<string, Value>)

  /** What the callable returns: the prepared project, or the `HttpsError`
      it raises with its code and message. */
  datatype CallResult =
    | Success(projectId: Value, fileId: Value, validationMetadata: map<string, Value>)
    | HttpsError(code: string, message: string)

  const OpenShotPrefix := "OpenShot API error: "
  const ProcessingPrefix := "Error processing video: "

  /** The message for a request exception, with the response text appended
      when the exception carries a response. */
  function OpenShotMessage(detail: string, responseText: Option<string>): (m: string)
    ensures StartsWith(m, OpenShotPrefix)
    ensures responseText.None? ==> m == OpenShotPrefix + detail
    ensures responseText.Some? ==> m == OpenShotPrefix + detail + " - " + responseText.value
  {
    OpenShotPrefix + detail + (if responseText.Some? then " - " + responseText.value else "")
  }

  /** The message for any other exception. */
  function ProcessingMessage(detail: string): (m: string)
    ensures StartsWith(m, ProcessingPrefix)
  {
    ProcessingPrefix + detail
  }

  /** The fields written when the handler fails. */
  function FailureFields(processingError: string, message: string): map<string, Value> {
    map[
      "processingStatus" := Str("failed"),
      "processingError" := Str(processingError),
      "validationErrors" := List([Str(message)])]
  }

  /** The fields written when the handler succeeds. */
  function SuccessFields(p: Prepared): map<string, Value> {
    map[
      "processingStatus" := Str("pending"),
      "validationMetadata" := Object(p.metadata),
      "openshot" := Object(map["projectId" := p.projectId, "fileId" := p.fileId])]
  }

  /** Whether `video_id` is bound when an except clause reads it. */
  datatype Binding = Unbound | Bound(videoId: Option<string>)

  /** As written, `video_id` is first assigned inside the `try`, from
      `data.get`; when that call raises, the except clause's
      `document(video_id)` raises UnboundLocalError, which escapes before any
      update and instead of the HttpsError. */
  function VideoIdAsWritten(req: VideoRequest): (b: Binding)
    ensures b.Unbound? <==> req.NotAnObject?
    ensures req.Fields? ==> b == Bound(req.videoId)
  {
    if req.Fields? then Bound(req.videoId) else Unbound
  }

  /** Data that is not an object reaches the generic except clause with the
      AttributeError of `data.get`, and as written that clause has no
      document to record the failure on. */
  lemma NonObjectDataUnrecordedAsWritten(typeName: string, getBlob: string -> BlobLookup, projectReply: HttpOutcome, fileReply: HttpOutcome)
    ensures TryPrepare(NotAnObject(typeName), getBlob, projectReply, fileReply).outcome
      == Err(OtherException(NoGetError(typeName)))
    ensures VideoIdAsWritten(NotAnObject(typeName)).Unbound?
  {
  }

  /** The document a failure is recorded on, with `video_id` bound to None
      before the `try`: the request's `videoId` once the data is read, and
      None when reading it raised. */
  function VideoId(req: VideoRequest): (id: Option<string>)
    ensures req.Fields? ==> id == req.videoId
    ensures req.NotAnObject? ==> id.None?
  {
    if req.Fields? then req.videoId else None
  }

  /** The document fields after an update: the given top-level fields
      replace those of the same name, the others are kept. */
  function Merged(documents: map<Option<string>, map<string, Value>>, id: Option<string>, fields: map<string, Value>): (d: map<string, Value>)
    ensures d.Keys == fields.Keys + (if id in documents then documents[id].Keys else {})
    ensures forall k :: k in fields ==> d[k] == fields[k]
    ensures id in documents ==> forall k :: k in documents[id] && k !in fields ==> d[k] == documents[id][k]
  {
    (if id in documents then documents[id] else map[]) + fields
  }

  /** The `videos` collection: its documents by id, and the log of every
      `update` call made on it. */
  class VideoCollection {
    var documents: map<Option<string>, map<string, Value>>
    var updates: seq<DocUpdate>

    constructor (documents: map<Option<string>, map<string, Value>>)
      ensures this.documents == documents && updates == []
    {
      this.documents := documents;
      updates := [];
    }

    /** `db.collection("videos").document(videoId).update(fields)`. */
    method Update(videoId: Option<string>, fields: map<string, Value>)
      modifies this
      ensures updates == old(updates) + [DocUpdate(videoId, fields)]
      ensures documents == old(documents)[videoId := Merged(old(documents), videoId, fields)]
    {
      documents := documents[videoId := Merged(documents, videoId, fields)];
      updates := updates + [DocUpdate(videoId, fields)];
    }

    /** The handler: the try body, then exactly one update on whichever path
      it took, and the result or the raised error. */
    method ValidateAndPrepareVideo(req: VideoRequest, getBlob: string -> BlobLookup, projectReply: HttpOutcome, fileReply: HttpOutcome)
      returns (r: CallResult)
      modifies this
      ensures |updates| == |old(updates)| + 1
      ensures updates[..|old(updates)|] == old(updates)
      ensures updates[|old(updates)|].videoId == VideoId(req)
      ensures documents == old(documents)[VideoId(req) :=
        Merged(old(documents), VideoId(req), updates[|old(updates)|].fields)]
      ensures var a := TryPrepare(req, getBlob, projectReply, fileReply).outcome;
        a.Ok? ==>
          && updates[|old(updates)|].fields == SuccessFields(a.value)
          && r == Success(a.value.projectId, a.value.fileId, a.value.metadata)
      ensures var a := TryPrepare(req, getBlob, projectReply, fileReply).outcome;
        a.Err? && a.error.RequestException? ==>
          var m := OpenShotMessage(a.error.detail, a.error.responseText);
          && updates[|old(updates)|].fields == FailureFields("invalid_format", m)
          && r == HttpsError("failed-precondition", m)
      ensures var a := TryPrepare(req, getBlob, projectReply, fileReply).outcome;
        a.Err? && a.error.OtherException? ==>
          var m := ProcessingMessage(a.error.detail);
          && updates[|old(updates)|].fields == FailureFields("processing_failed", m)
          && r == HttpsError("internal", m)
      ensures r.Success? <==> updates[|old(updates)|].fields["processingStatus"] == Str("pending")
      ensures r.HttpsError? ==>
        && updates[|old(updates)|].fields["processingStatus"] == Str("failed")
        && updates[|old(updates)|].fields["validationErrors"] == List([Str(r.message)])
        && (r.code == "failed-precondition" <==> updates[|old(updates)|].fields["processingError"] == Str("invalid_format"))
        && (r.code == "internal" <==> updates[|old(updates)|].fields["processingError"] == Str("processing_failed"))
      // The failures the tests pin down: missing fields, a missing blob, and
      // an OpenShot error on the project request.
      ensures req.Fields? && !HasIds(req) ==>
        r == HttpsError("internal", ProcessingPrefix + MissingFieldsError)
      ensures HasIds(req) && getBlob(BlobPath(req.userId.value, req.videoId.value)).NoBlob? ==>
        && r == HttpsError("internal", ProcessingPrefix + BlobMissingError)
        && updates[|old(updates)|].fields == FailureFields("processing_failed", ProcessingPrefix + BlobMissingError)
      ensures
        && HasIds(req) && getBlob(BlobPath(req.userId.value, req.videoId.value)).Found?
        && projectReply.RequestFailed?
        ==>
        var m := OpenShotMessage(projectReply.detail, projectReply.responseText);
        && r == HttpsError("failed-precondition", m)
        && updates[|old(updates)|].fields == FailureFields("invalid_format", m)
      // Data that is not an object is recorded on the document None.
      ensures req.NotAnObject? ==>
        && r == HttpsError("internal", ProcessingPrefix + NoGetError(req.typeName))
        && updates[|old(updates)|].videoId.None?
    {
      var attempt := TryPrepare(req, getBlob, projectReply, fileReply);
      var videoId := VideoId(req);
      match attempt.outcome {
        case Ok(prepared) =>
          Update(videoId, SuccessFields(prepared));
          r := Success(prepared.projectId, prepared.fileId, prepared.metadata);
        case Err(RequestException(detail, responseText)) =>
          var message := OpenShotMessage(detail, responseText);
          Update(videoId, FailureFields("invalid_format", message));
          r := HttpsError("failed-precondition", message);
        case Err(OtherException(detail)) =>
          var message := ProcessingMessage(detail);
          Update(videoId, FailureFields("processing_failed", message));
          r := HttpsError("internal", message);
      }
    }
  }
}
