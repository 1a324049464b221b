/** The composite track identifier `videoId/audioTrackId` that a
    transcription request names (functions/spec/transcribe.py, the unpacking
    of `track_id.split('/')` into exactly two names). */
module TrackIds {
  import opened Values
  import opened Text

  /** The two halves of a composite track identifier. */
  datatype TrackRef = TrackRef(videoId: string, audioTrackId: string)

  /** Splits the identifier on '/' and accepts the result only when it has
      exactly two pieces, as the two-name unpacking does; any other number of
      pieces raises and is reported as a malformed identifier (None). */
  function ParseTrackId(trackId: string): (r: Option<TrackRef>)
    ensures r.Some? <==> Count(trackId, '/') == 1
    ensures r.Some? ==> r.value.videoId + "/" + r.value.audioTrackId == trackId
    ensures r.Some? ==> '/' !in r.value.videoId && '/' !in r.value.audioTrackId
  {
    var parts := Split(trackId, '/');
    JoinSplit(trackId, '/');
    if |parts| == 2 then
      assert Join(parts, '/') == parts[0] + "/" + Join(parts[1..], '/');
      Some(TrackRef(parts[0], parts[1]))
    else None
  }

  /** The converse: an identifier formatted from two slash-free names parses
      back into exactly those names. */
  lemma FormatThenParse(videoId: string, audioTrackId: string)
    requires '/' !in videoId && '/' !in audioTrackId
    ensures ParseTrackId(videoId + "/" + audioTrackId) == Some(TrackRef(videoId, audioTrackId))
  {
    var parts := [videoId, audioTrackId];
    assert Join(parts, '/') == videoId + "/" + audioTrackId by {
      assert parts[1..] == [audioTrackId];
    }
    SplitJoin(parts, '/');
  }
}
