/** The time-range slicer of the transcription handler
    (functions/spec/transcribe.py, the optional `startTime`/`endTime` in
    seconds, their conversion to milliseconds, the clamps, the empty-range
    rejection and the half-open slice), and the time range it reports. */
module TimeRange {
  import opened Values

  /** One millisecond of decoded PCM audio: a clip is indexed and measured in
      milliseconds, as pydub's AudioSegment is. */
  datatype Millisecond = Millisecond(samples: seq<int>)

  type Audio = seq<Millisecond>

  /** A bound in seconds as the JSON decoder hands it over: a Python int, a
      finite float, or one of the non-finite floats the decoder accepts
      (`Infinity`, `-Infinity`, `NaN`). */
  datatype Seconds = Whole(n: int) | Float(x: real) | Infinite(negative: bool) | NotANumber

  /** The least magnitude that a float product rounds to infinity:
      2^1024 - 2^970, half an ulp above the largest finite double. */
  const OverflowBound: real := 179769313486231580793728971405303415079934132710037826936173778980444968292764750946649017977587207096330286416692887910946555547851940402630657488671505820681908902000708383676273854845817711531764475730270069855571366959622842914819860834936475292719074168444365510704342711559699508093042880177904174497792.0

  /** The texts of the OverflowError and ValueError that `int()` raises. */
  const InfinityError := "cannot convert float infinity to integer"
  const NaNError := "cannot convert float NaN to integer"

  /** Python's `int(x)` on a float: truncation toward zero, not rounding. */
  function Truncate(x: real): (n: int)
    ensures 0.0 <= x ==> n as real <= x < n as real + 1.0
    ensures x < 0.0 ==> n as real - 1.0 < x <= n as real
  {
    if x >= 0.0 then x.Floor else -((-x).Floor)
  }

  /** A float product `x * 1000` that stays finite. */
  predicate Finite(x: real) {
    -OverflowBound < x * 1000.0 < OverflowBound
  }

  /** `int(t * 1000)`: exact on an int; on a float the truncated product,
      unless the product is infinite or not a number, when `int()` raises. */
  function Millis(t: Seconds): (r: Result<int, string>)
    ensures t.Whole? ==> r == Ok(1000 * t.n)
    ensures t.Float? ==> (r.Ok? <==> Finite(t.x))
    ensures t.Float? && r.Ok? ==> r.value == Truncate(t.x * 1000.0)
    ensures t.NotANumber? ==> r == Err(NaNError)
    ensures r.Err? && !t.NotANumber? ==> r == Err(InfinityError)
  {
    match t
    case Whole(n) => Ok(n * 1000)
    case Float(x) => if Finite(x) then Ok(Truncate(x * 1000.0)) else Err(InfinityError)
    case Infinite(_) => Err(InfinityError)
    case NotANumber => Err(NaNError)
  }

  /** The effective start: 0 when absent, otherwise the converted
      milliseconds raised to 0 if negative, or the conversion's error. */
  function StartMs(startTime: Option<Seconds>): (r: Result<nat, string>)
    ensures startTime.None? ==> r == Ok(0)
    ensures startTime.Some? ==> (r.Ok? <==> Millis(startTime.value).Ok?)
    ensures startTime.Some? && r.Err? ==> r.error == Millis(startTime.value).error
    ensures startTime.Some? && r.Ok? ==>
      && Millis(startTime.value).value <= r.value
      && (r.value == 0 || r.value == Millis(startTime.value).value)
  {
    if startTime.None? then Ok(0)
    else match Millis(startTime.value)
      case Err(e) => Err(e)
      case Ok(ms) => Ok(if ms < 0 then 0 else ms)
  }

  /** The effective end: the clip length when absent, otherwise the
      converted milliseconds lowered to the clip length if beyond it, or the
      conversion's error. It is not raised: a negative end stays negative. */
  function EndMs(endTime: Option<Seconds>, length: nat): (r: Result<int, string>)
    ensures endTime.None? ==> r == Ok(length)
    ensures endTime.Some? ==> (r.Ok? <==> Millis(endTime.value).Ok?)
    ensures endTime.Some? && r.Err? ==> r.error == Millis(endTime.value).error
    ensures r.Ok? ==> r.value <= length
    ensures endTime.Some? && r.Ok? ==>
      && r.value <= Millis(endTime.value).value
      && (r.value == length || r.value == Millis(endTime.value).value)
  {
    if endTime.None? then Ok(length)
    else match Millis(endTime.value)
      case Err(e) => Err(e)
      case Ok(ms) => Ok(if ms > length then length else ms)
  }

  /** Slicing happens only when at least one bound was given. */
  predicate Requested(startTime: Option<Seconds>, endTime: Option<Seconds>) {
    startTime.Some? || endTime.Some?
  }

  /** What the slicing step yields: the clip, an empty range, or the error a
      conversion raised. */
  datatype Slice = Clip(audio: Audio) | InvalidRange | Unconvertible(detail: string)

  /** The clip the model should see: all of the audio when no bound was
      given; otherwise the start is converted before the end, and the
      clamped half-open range is cut out unless it is empty. */
  function Sliced(audio: Audio, startTime: Option<Seconds>, endTime: Option<Seconds>): (r: Slice)
    ensures !Requested(startTime, endTime) ==> r == Clip(audio)
    ensures Requested(startTime, endTime) ==>
      (r.Unconvertible? <==> StartMs(startTime).Err? || EndMs(endTime, |audio|).Err?)
    ensures Requested(startTime, endTime) && StartMs(startTime).Err? ==>
      r == Unconvertible(StartMs(startTime).error)
    ensures Requested(startTime, endTime) && StartMs(startTime).Ok? && EndMs(endTime, |audio|).Err? ==>
      r == Unconvertible(EndMs(endTime, |audio|).error)
    ensures Requested(startTime, endTime) && StartMs(startTime).Ok? && EndMs(endTime, |audio|).Ok? ==>
      (r.InvalidRange? <==> StartMs(startTime).value >= EndMs(endTime, |audio|).value)
    ensures Requested(startTime, endTime) && r.Clip? ==>
      && StartMs(startTime).Ok? && EndMs(endTime, |audio|).Ok?
      && var s, e := StartMs(startTime).value, EndMs(endTime, |audio|).value;
      && 0 <= s < e <= |audio|
      && |r.audio| == e - s
      && r.audio == audio[s..e]
      && audio == audio[..s] + r.audio + audio[e..]
  {
    if !Requested(startTime, endTime) then Clip(audio)
    else match (StartMs(startTime), EndMs(endTime, |audio|))
      case (Err(e), _) => Unconvertible(e)
      case (Ok(_), Err(e)) => Unconvertible(e)
      case (Ok(s), Ok(e)) =>
        if s >= e then InvalidRange
        else
          assert audio == audio[..s] + audio[s..e] + audio[e..];
          Clip(audio[s..e])
  }

  /** The slicing step as the handler performs it, converting and clamping
      one variable at a time. */
  method SliceRange(audio: Audio, startTime: Option<Seconds>, endTime: Option<Seconds>) returns (r: Slice)
    ensures r == Sliced(audio, startTime, endTime)
  {
    if startTime.None? && endTime.None? {
      return Clip(audio);
    }
    var startMs := 0;
    if startTime.Some? {
      var converted := Millis(startTime.value);
      if converted.Err? {
        return Unconvertible(converted.error);
      }
      startMs := converted.value;
    }
    var endMs := |audio|;
    if endTime.Some? {
      var converted := Millis(endTime.value);
      if converted.Err? {
        return Unconvertible(converted.error);
      }
      endMs := converted.value;
    }
    if startMs < 0 {
      startMs := 0;
    }
    if endMs > |audio| {
      endMs := |audio|;
    }
    if startMs >= endMs {
      return InvalidRange;
    }
    r := Clip(audio[startMs..endMs]);
  }

  /** Raw bounds that are in order can still give an empty range once the
      end is clamped to the clip: a start at or past the end of the audio
      is rejected whatever end was asked for. */
  lemma OrderedBoundsPastEndRejected(audio: Audio, start: real, end: real)
    requires start < end && Finite(start) && Finite(end)
    requires Truncate(start * 1000.0) >= |audio|
    ensures Sliced(audio, Some(Float(start)), Some(Float(end))) == InvalidRange
  {
  }

  /** A float bound too large for its milliseconds to be finite is not
      clamped to the clip: the conversion raises, however long the audio. */
  lemma OverflowingEndRaises(audio: Audio, end: real)
    requires end * 1000.0 >= OverflowBound
    ensures Sliced(audio, None, Some(Float(end))) == Unconvertible(InfinityError)
  {
  }

  /** The time range a successful transcription reports, in seconds. */
  datatype ReportedRange = ReportedRange(startTime: Seconds, endTime: Seconds)

  /** Duration in seconds of a clip (pydub's `duration_seconds`). */
  function Duration(clip: Audio): real {
    |clip| as real / 1000.0
  }

  /** The raw, unclamped bounds as requested; the int 0 for an absent start
      and the float duration of the clip handed to the model for an absent
      end. */
  function ReportRange(startTime: Option<Seconds>, endTime: Option<Seconds>, clip: Audio): (t: ReportedRange)
    ensures startTime.Some? ==> t.startTime == startTime.value
    ensures startTime.None? ==> t.startTime == Whole(0)
    ensures endTime.Some? ==> t.endTime == endTime.value
    ensures endTime.None? ==> t.endTime.Float? && t.endTime.x * 1000.0 == |clip| as real
  {
    ReportedRange(startTime.GetOr(Whole(0)), if endTime.Some? then endTime.value else Float(Duration(clip)))
  }

  /** The text of the OverflowError raised when an int is converted to a
      float that would be infinite. */
  const IntTooLargeError := "int too large to convert to float"

  /** `format(t, ".1f")` succeeds: a float always formats, while an int is
      first converted to a float, which raises once the int rounds to
      infinity. */
  predicate Formattable(t: Seconds) {
    t.Whole? ==> -OverflowBound < t.n as real < OverflowBound
  }

  /** Both reported bounds can be formatted into the response's file name. */
  predicate Reportable(t: ReportedRange) {
    Formattable(t.startTime) && Formattable(t.endTime)
  }

  /** An int end too large for a float is converted and clamped without
      error, unlike a float of the same size; it is only the formatting of
      the reported range that fails. */
  lemma {:induction false} HugeWholeEndClampedButUnreportable(audio: Audio, n: int)
    requires 0 < |audio| <= 1000 * n
    requires n as real >= OverflowBound
    ensures Sliced(audio, None, Some(Whole(n))) == Clip(audio)
    ensures !Reportable(ReportRange(None, Some(Whole(n)), audio))
  {
    assert EndMs(Some(Whole(n)), |audio|) == Ok(|audio|);
    assert audio[0..|audio|] == audio;
  }

  /** With a start but no end, the reported end is the duration of the
      sliced clip measured from the start, not the end of the original; so
      once the start lies beyond the middle of the audio the reported end
      is smaller than the reported start. */
  lemma {:induction false} OpenEndedReportPrecedesStart(audio: Audio, start: real)
    requires Finite(start)
    requires Truncate(start * 1000.0) < |audio|
    requires 2 * Truncate(start * 1000.0) > |audio|
    ensures Sliced(audio, Some(Float(start)), None).Clip?
    ensures
      var t := ReportRange(Some(Float(start)), None, Sliced(audio, Some(Float(start)), None).audio);
      t.endTime.x < start
  {
    var ms := Truncate(start * 1000.0);
    assert StartMs(Some(Float(start))) == Ok(ms);
    var clip := Sliced(audio, Some(Float(start)), None).audio;
    assert |clip| == |audio| - ms;
    assert (|clip| as real) < ms as real <= start * 1000.0;
  }
}
