/**
 * The validation prefix of the `/api/tts` and `/api/tts/stream` handlers:
 * from the parsed JSON body to either a rejection or the request the
 * pipeline goes on with.
 */
module RequestValidation {
  import opened Wrappers
  import opened PyStr

  /**
   * A body field the handler calls `.strip()` or `.lower()` on: a JSON string,
   * or any other JSON value (null, number, list, ...), on which the call raises.
   */
  datatype StrField = Str(chars: string) | NotAString

  /**
   * A body field the handler passes to `float(...)`: a value `float` accepts,
   * carrying the number it yields, or one on which it raises.
   */
  datatype NumField = Num(value: real) | NotANumber

  /** The JSON object of a request body; `None` is a key the object does not have. */
  datatype Body = Body(text: Option<StrField>, speed: Option<NumField>, volume: Option<NumField>, format: Option<StrField>)

  datatype Field = TextField | SpeedField | VolumeField | FormatField

  /**
   * Why a request is turned away. `ConversionFailed` is the exception that
   * `.strip()`, `float(...)` or `.lower()` raises; the handler's broad
   * `except` turns it into a 500, every other rejection is a 400.
   */
  datatype Rejection =
    | MissingText
    | ConversionFailed(field: Field)
    | EmptyText
    | TextTooLong
    | SpeedOutOfRange
    | VolumeOutOfRange
    | UnsupportedFormat

  function Status(e: Rejection): (code: int)
    ensures code == 400 || code == 500
    ensures code == 500 <==> e.ConversionFailed?
  {
    if e.ConversionFailed? then 500 else 400
  }

  const DEFAULT_SPEED: real := 1.0
  const DEFAULT_VOLUME: real := 1.5
  const DEFAULT_FORMAT: string := "wav"
  const MIN_SPEED: real := 0.5
  const MAX_SPEED: real := 2.0
  const MIN_VOLUME: real := 0.5
  const MAX_VOLUME: real := 3.0

  predicate SpeedInRange(x: real) {
    MIN_SPEED <= x <= MAX_SPEED
  }

  predicate VolumeInRange(x: real) {
    MIN_VOLUME <= x <= MAX_VOLUME
  }

  /** A request `/api/tts` accepts. */
  datatype SynthesisRequest = SynthesisRequest(text: string, speed: real, volume: real, format: string)

  /** A request `/api/tts/stream` accepts; that handler never reads a format. */
  datatype StreamRequest = StreamRequest(text: string, speed: real, volume: real)

  /** `float(data.get(key, default))`: the number, or `None` where `float` raises. */
  function FloatOf(f: Option<NumField>, default: real): (r: Option<real>)
    ensures f.None? ==> r == Some(default)
    ensures r.None? <==> f == Some(NotANumber)
    ensures f.Some? && f.value.Num? ==> r == Some(f.value.value)
  {
    match f
    case None => Some(default)
    case Some(Num(x)) => Some(x)
    case Some(NotANumber) => None
  }

  /** `data.get(key, default)` used as a string: `None` where it is not one. */
  function StringOf(f: Option<StrField>, default: string): (r: Option<string>)
    ensures f.None? ==> r == Some(default)
    ensures r.None? <==> f == Some(NotAString)
    ensures f.Some? && f.value.Str? ==> r == Some(f.value.chars)
  {
    match f
    case None => Some(default)
    case Some(Str(s)) => Some(s)
    case Some(NotAString) => None
  }

  /** `data['text'].strip()`, where the body has a string `text`. */
  function TrimmedText(body: Option<Body>): (r: Option<string>)
    ensures r.Some? <==> body.Some? && body.value.text.Some? && body.value.text.value.Str?
    ensures r.Some? ==> |r.value| <= |body.value.text.value.chars|
    ensures r.Some? && r.value != [] ==> !IsSpace(r.value[0]) && !IsSpace(r.value[|r.value| - 1])
  {
    if body.Some? && body.value.text.Some? && body.value.text.value.Str?
    then Some(Strip(body.value.text.value.chars))
    else None
  }

  /** The `/api/tts` handler up to the call of `get_tts`. */
  function ValidateTts(maxTextLength: int, body: Option<Body>): (r: Result<SynthesisRequest, Rejection>)
    ensures r.Ok? ==>
      && r.value.text != [] && |r.value.text| <= maxTextLength
      && !IsSpace(r.value.text[0]) && !IsSpace(r.value.text[|r.value.text| - 1])
      && SpeedInRange(r.value.speed) && VolumeInRange(r.value.volume)
      && r.value.format == DEFAULT_FORMAT
    ensures r.Ok? ==>
      && TrimmedText(body) == Some(r.value.text)
      && FloatOf(body.value.speed, DEFAULT_SPEED) == Some(r.value.speed)
      && FloatOf(body.value.volume, DEFAULT_VOLUME) == Some(r.value.volume)
      && StringOf(body.value.format, DEFAULT_FORMAT).Some?
      && Lower(StringOf(body.value.format, DEFAULT_FORMAT).value) == r.value.format
  {
    if body.None? || body.value.text.None? then Err(MissingText)
    else if body.value.text.value.NotAString? then Err(ConversionFailed(TextField))
    else
      var b := body.value;
      var text := Strip(b.text.value.chars);
      var speed := FloatOf(b.speed, DEFAULT_SPEED);
      var volume := FloatOf(b.volume, DEFAULT_VOLUME);
      var format := StringOf(b.format, DEFAULT_FORMAT);
      if speed.None? then Err(ConversionFailed(SpeedField))
      else if volume.None? then Err(ConversionFailed(VolumeField))
      else if format.None? then Err(ConversionFailed(FormatField))
      else if text == [] then Err(EmptyText)
      else if |text| > maxTextLength then Err(TextTooLong)
      else if !SpeedInRange(speed.value) then Err(SpeedOutOfRange)
      else if !VolumeInRange(volume.value) then Err(VolumeOutOfRange)
      else if Lower(format.value) != DEFAULT_FORMAT then Err(UnsupportedFormat)
      else Ok(SynthesisRequest(text, speed.value, volume.value, Lower(format.value)))
  }

  /** The `/api/tts/stream` handler up to the call of `get_tts`: the text checks only. */
  function ValidateStream(maxTextLength: int, body: Option<Body>): (r: Result<StreamRequest, Rejection>)
    ensures r.Ok? ==>
      && r.value.text != [] && |r.value.text| <= maxTextLength
      && !IsSpace(r.value.text[0]) && !IsSpace(r.value.text[|r.value.text| - 1])
    ensures r.Ok? ==>
      && TrimmedText(body) == Some(r.value.text)
      && FloatOf(body.value.speed, DEFAULT_SPEED) == Some(r.value.speed)
      && FloatOf(body.value.volume, DEFAULT_VOLUME) == Some(r.value.volume)
  {
    if body.None? || body.value.text.None? then Err(MissingText)
    else if body.value.text.value.NotAString? then Err(ConversionFailed(TextField))
    else
      var b := body.value;
      var text := Strip(b.text.value.chars);
      var speed := FloatOf(b.speed, DEFAULT_SPEED);
      var volume := FloatOf(b.volume, DEFAULT_VOLUME);
      if speed.None? then Err(ConversionFailed(SpeedField))
      else if volume.None? then Err(ConversionFailed(VolumeField))
      else if text == [] then Err(EmptyText)
      else if |text| > maxTextLength then Err(TextTooLong)
      else Ok(StreamRequest(text, speed.value, volume.value))
  }

  // ---------------------------------------------------------------------------
  // Reference definition: each check stated on its own, and the order in which
  // each handler makes them. A handler rejects with the first check that fails.

  /** Whether the check that produces `e` fails on `body`, judged by itself. */
  predicate Fails(maxTextLength: int, body: Option<Body>, e: Rejection) {
    match e
    case MissingText => body.None? || body.value.text.None?
    case ConversionFailed(TextField) => body.Some? && body.value.text == Some(NotAString)
    case ConversionFailed(SpeedField) => body.Some? && FloatOf(body.value.speed, DEFAULT_SPEED).None?
    case ConversionFailed(VolumeField) => body.Some? && FloatOf(body.value.volume, DEFAULT_VOLUME).None?
    case ConversionFailed(FormatField) => body.Some? && StringOf(body.value.format, DEFAULT_FORMAT).None?
    case EmptyText => TrimmedText(body) == Some([])
    case TextTooLong => TrimmedText(body).Some? && |TrimmedText(body).value| > maxTextLength
    case SpeedOutOfRange =>
      body.Some? && var x := FloatOf(body.value.speed, DEFAULT_SPEED); x.Some? && !SpeedInRange(x.value)
    case VolumeOutOfRange =>
      body.Some? && var x := FloatOf(body.value.volume, DEFAULT_VOLUME); x.Some? && !VolumeInRange(x.value)
    case UnsupportedFormat =>
      body.Some? && var f := StringOf(body.value.format, DEFAULT_FORMAT); f.Some? && Lower(f.value) != DEFAULT_FORMAT
  }

  const TTS_CHECKS: seq<Rejection> := [
    MissingText, ConversionFailed(TextField), ConversionFailed(SpeedField), ConversionFailed(VolumeField),
    ConversionFailed(FormatField), EmptyText, TextTooLong, SpeedOutOfRange, VolumeOutOfRange, UnsupportedFormat
  ]

  const STREAM_CHECKS: seq<Rejection> := [
    MissingText, ConversionFailed(TextField), ConversionFailed(SpeedField), ConversionFailed(VolumeField),
    EmptyText, TextTooLong
  ]

  /** `checks[k]` fails and every check before it passes. */
  predicate FirstFailure(maxTextLength: int, body: Option<Body>, checks: seq<Rejection>, k: int) {
    && 0 <= k < |checks|
    && Fails(maxTextLength, body, checks[k])
    && forall j :: 0 <= j < k ==> !Fails(maxTextLength, body, checks[j])
  }

  /** No check in `checks` fails. */
  predicate AllPass(maxTextLength: int, body: Option<Body>, checks: seq<Rejection>) {
    forall j :: 0 <= j < |checks| ==> !Fails(maxTextLength, body, checks[j])
  }

  /** `/api/tts` accepts exactly when every one of its checks passes. */
  lemma TtsAcceptsIffAllPass(maxTextLength: int, body: Option<Body>)
    ensures ValidateTts(maxTextLength, body).Ok? <==> AllPass(maxTextLength, body, TTS_CHECKS)
  {
    if ValidateTts(maxTextLength, body).Ok? {
      forall j | 0 <= j < |TTS_CHECKS|
        ensures !Fails(maxTextLength, body, TTS_CHECKS[j])
      {
        assert j in {0, 1, 2, 3, 4, 5, 6, 7, 8, 9};
      }
    } else {
      var k := TtsCheckIndex(ValidateTts(maxTextLength, body).error);
      TtsRejectsAtFirstFailure(maxTextLength, body);
      assert Fails(maxTextLength, body, TTS_CHECKS[k]);
    }
  }

  /** The position in `TTS_CHECKS` of the check that produces `e`. */
  function TtsCheckIndex(e: Rejection): (k: nat)
    ensures k < |TTS_CHECKS| && TTS_CHECKS[k] == e
  {
    match e
    case MissingText => 0
    case ConversionFailed(TextField) => 1
    case ConversionFailed(SpeedField) => 2
    case ConversionFailed(VolumeField) => 3
    case ConversionFailed(FormatField) => 4
    case EmptyText => 5
    case TextTooLong => 6
    case SpeedOutOfRange => 7
    case VolumeOutOfRange => 8
    case UnsupportedFormat => 9
  }

  /** When `/api/tts` rejects, it rejects with the first of its checks that fails. */
  lemma TtsRejectsAtFirstFailure(maxTextLength: int, body: Option<Body>)
    ensures ValidateTts(maxTextLength, body).Err? ==>
      FirstFailure(maxTextLength, body, TTS_CHECKS, TtsCheckIndex(ValidateTts(maxTextLength, body).error))
  {
    var r := ValidateTts(maxTextLength, body);
    if r.Err? {
      var k := TtsCheckIndex(r.error);
      assert Fails(maxTextLength, body, TTS_CHECKS[k]);
      forall j | 0 <= j < k
        ensures !Fails(maxTextLength, body, TTS_CHECKS[j])
      {
        assert j in {0, 1, 2, 3, 4, 5, 6, 7, 8};
      }
    }
  }

  /** `/api/tts/stream` accepts exactly when each of its six checks passes. */
  lemma StreamAcceptsIffAllPass(maxTextLength: int, body: Option<Body>)
    ensures ValidateStream(maxTextLength, body).Ok? <==> AllPass(maxTextLength, body, STREAM_CHECKS)
  {
    if ValidateStream(maxTextLength, body).Ok? {
      var b := body.value;
      assert FloatOf(b.speed, DEFAULT_SPEED).Some? && FloatOf(b.volume, DEFAULT_VOLUME).Some?;
      assert TrimmedText(body).Some? && TrimmedText(body).value != [];
      forall j | 0 <= j < |STREAM_CHECKS|
        ensures !Fails(maxTextLength, body, STREAM_CHECKS[j])
      {
        assert j in {0, 1, 2, 3, 4, 5};
      }
    } else {
      var k := StreamCheckIndex(ValidateStream(maxTextLength, body).error);
      StreamRejectsAtFirstFailure(maxTextLength, body);
      assert Fails(maxTextLength, body, STREAM_CHECKS[k]);
    }
  }

  /** The position in `STREAM_CHECKS` of the check that produces `e`, for the rejections that list holds. */
  function StreamCheckIndex(e: Rejection): (k: nat)
    ensures k < |STREAM_CHECKS|
    ensures e in STREAM_CHECKS ==> STREAM_CHECKS[k] == e
  {
    match e
    case MissingText => 0
    case ConversionFailed(TextField) => 1
    case ConversionFailed(SpeedField) => 2
    case ConversionFailed(VolumeField) => 3
    case EmptyText => 4
    case TextTooLong => 5
    case _ => 0
  }

  /** When `/api/tts/stream` rejects, it rejects with the first of its checks that fails. */
  lemma StreamRejectsAtFirstFailure(maxTextLength: int, body: Option<Body>)
    ensures ValidateStream(maxTextLength, body).Err? ==>
      && ValidateStream(maxTextLength, body).error in STREAM_CHECKS
      && FirstFailure(maxTextLength, body, STREAM_CHECKS, StreamCheckIndex(ValidateStream(maxTextLength, body).error))
  {
    var r := ValidateStream(maxTextLength, body);
    if r.Err? {
      var k := StreamCheckIndex(r.error);
      assert r.error in STREAM_CHECKS;
      assert Fails(maxTextLength, body, STREAM_CHECKS[k]);
      forall j | 0 <= j < k
        ensures !Fails(maxTextLength, body, STREAM_CHECKS[j])
      {
        assert j in {0, 1, 2, 3, 4};
      }
    }
  }

  /**
   * The stream handler makes the text checks of `/api/tts` and no others: what
   * `/api/tts` accepts it accepts with the same values; what it rejects
   * `/api/tts` rejects for the same reason, unless `/api/tts` fails earlier on
   * a non-string format; and a range or format rejection of `/api/tts` is no
   * rejection there.
   */
  lemma StreamSkipsRangeAndFormatChecks(maxTextLength: int, body: Option<Body>)
    ensures ValidateTts(maxTextLength, body).Ok? ==>
      var q := ValidateTts(maxTextLength, body).value;
      ValidateStream(maxTextLength, body) == Ok(StreamRequest(q.text, q.speed, q.volume))
    ensures ValidateStream(maxTextLength, body).Err? ==>
      || ValidateTts(maxTextLength, body) == Err(ValidateStream(maxTextLength, body).error)
      || ValidateTts(maxTextLength, body) == Err(ConversionFailed(FormatField))
    ensures ValidateTts(maxTextLength, body) in {Err(SpeedOutOfRange), Err(VolumeOutOfRange), Err(UnsupportedFormat)} ==>
      ValidateStream(maxTextLength, body).Ok?
  {
  }

  /**
   * Each absent field takes its default whatever the other fields hold: an
   * absent speed is 1.0, an absent volume 1.5, and an absent format is "wav",
   * so none of them can be the reason for a rejection.
   */
  lemma TtsDefaults(maxTextLength: int, body: Option<Body>)
    requires body.Some?
    ensures var b, r := body.value, ValidateTts(maxTextLength, body);
      && (b.speed.None? ==> r != Err(SpeedOutOfRange) && r != Err(ConversionFailed(SpeedField)) && (r.Ok? ==> r.value.speed == 1.0))
      && (b.volume.None? ==> r != Err(VolumeOutOfRange) && r != Err(ConversionFailed(VolumeField)) && (r.Ok? ==> r.value.volume == 1.5))
      && (b.format.None? ==> r != Err(UnsupportedFormat) && r != Err(ConversionFailed(FormatField)))
    ensures var b, r := body.value, ValidateStream(maxTextLength, body);
      && (b.speed.None? ==> r != Err(ConversionFailed(SpeedField)) && (r.Ok? ==> r.value.speed == 1.0))
      && (b.volume.None? ==> r != Err(ConversionFailed(VolumeField)) && (r.Ok? ==> r.value.volume == 1.5))
  {
    assert Lower(DEFAULT_FORMAT) == DEFAULT_FORMAT;
  }

  /** A body with an acceptable text and nothing else is accepted with every default. */
  lemma ExampleDefaults(maxTextLength: int, text: string)
    requires Strip(text) != [] && |Strip(text)| <= maxTextLength
    ensures ValidateTts(maxTextLength, Some(Body(Some(Str(text)), None, None, None)))
         == Ok(SynthesisRequest(Strip(text), 1.0, 1.5, "wav"))
    ensures ValidateStream(maxTextLength, Some(Body(Some(Str(text)), None, None, None)))
         == Ok(StreamRequest(Strip(text), 1.0, 1.5))
  {
  }

  /** For an acceptable text, speed and volume are accepted exactly within their closed ranges, speed judged first. */
  lemma TtsRangesInclusive(maxTextLength: int, text: string, speed: real, volume: real)
    requires Strip(text) != [] && |Strip(text)| <= maxTextLength
    ensures var r := ValidateTts(maxTextLength, Some(Body(Some(Str(text)), Some(Num(speed)), Some(Num(volume)), None)));
      && (r.Ok? <==> 0.5 <= speed <= 2.0 && 0.5 <= volume <= 3.0)
      && (r.Ok? ==> r.value.speed == speed && r.value.volume == volume)
      && (!(0.5 <= speed <= 2.0) ==> r == Err(SpeedOutOfRange))
      && (0.5 <= speed <= 2.0 && !(0.5 <= volume <= 3.0) ==> r == Err(VolumeOutOfRange))
  {
  }

  /** The format is accepted exactly when it is "wav" in any mix of upper and lower case. */
  lemma FormatAcceptedIff(format: string)
    ensures Lower(format) == DEFAULT_FORMAT <==>
      && |format| == 3
      && (format[0] == 'w' || format[0] == 'W')
      && (format[1] == 'a' || format[1] == 'A')
      && (format[2] == 'v' || format[2] == 'V')
  {
    if |format| == 3 {
      LowerCharIs(format[0], 'w');
      LowerCharIs(format[1], 'a');
      LowerCharIs(format[2], 'v');
      if Lower(format) == DEFAULT_FORMAT {
        assert Lower(format)[0] == 'w' && Lower(format)[1] == 'a' && Lower(format)[2] == 'v';
      } else {
        assert Lower(format)[0] != 'w' || Lower(format)[1] != 'a' || Lower(format)[2] != 'v';
      }
    }
  }

  /** An empty or all-blank text is rejected as empty, before the range checks. */
  lemma ExampleEmptyText()
    ensures ValidateTts(500, Some(Body(Some(Str("")), None, None, None))) == Err(EmptyText)
    ensures ValidateTts(500, Some(Body(Some(Str("   ")), Some(Num(9.0)), None, None))) == Err(EmptyText)
  {
    StripEmpty("   ");
  }

  /** A 600-character text is too long under the default limit of 500. */
  lemma ExampleTooLong()
    ensures ValidateTts(500, Some(Body(Some(Str(seq(600, _ => 'x'))), None, None, None))) == Err(TextTooLong)
  {
    StripUnpadded(seq(600, _ => 'x'));
  }

  /** A volume of 5.0 is out of range; a speed `float` rejects makes a 500; an upper-case "WAV" is accepted. */
  lemma ExampleFields()
    ensures ValidateTts(500, Some(Body(Some(Str("hi")), None, Some(Num(5.0)), None))) == Err(VolumeOutOfRange)
    ensures ValidateTts(500, Some(Body(Some(Str("hi")), Some(NotANumber), None, None))) == Err(ConversionFailed(SpeedField))
    ensures ValidateTts(500, Some(Body(Some(Str("hi")), None, None, Some(Str("WAV"))))) == Ok(SynthesisRequest("hi", 1.0, 1.5, "wav"))
    ensures ValidateTts(500, Some(Body(None, Some(NotANumber), None, None))) == Err(MissingText)
  {
    StripUnpadded("hi");
    assert Lower("WAV") == "wav";
  }

  /** The stream handler takes a speed of 5.0 and ignores a format that is not even a string. */
  lemma ExampleStreamLax()
    ensures ValidateStream(500, Some(Body(Some(Str("hi")), Some(Num(5.0)), None, Some(NotAString)))) == Ok(StreamRequest("hi", 5.0, 1.5))
  {
    StripUnpadded("hi");
  }
}
