/**
 * The request handlers that compose the parts: `/health`, `/api/tts` and
 * `/api/tts/stream`. The synthesis call (`tts.generate`) and the WAV writer
 * (`sf.write` with PCM_16) are foreign, and are given to the handlers as
 * the functions of a `Backend`; the clock reading for the file's mtime is a
 * parameter.
 */
module TtsService {
  import opened Wrappers
  import opened VolumeGain
  import opened RequestValidation
  import opened ModelManager
  import opened ArtifactStore

  /** The speaker id every synthesis call passes (`sid=0`). */
  const SPEAKER_ID: int := 0

  const DOWNLOAD_PREFIX: string := "/api/download/"

  /** What `tts.generate(...)` returns. */
  datatype Audio = Audio(samples: seq<real>, sampleRate: int)

  /**
   * The foreign collaborators: synthesis from a handle, text, speaker id and
   * speed; WAV encoding of samples at a rate. `None` is a call that raises.
   */
  datatype Backend = Backend(
    generate: (Handle, string, int, real) -> Option<Audio>,
    writeWav: (seq<real>, int) -> Option<seq<bv8>>)

  /** Why a request fails. */
  datatype Failure =
    | Rejected(rejection: Rejection)
    | InitFailed(init: InitError)
    | GenerateFailed
    | NoAudio
    | ZeroSampleRate
    | WriteFailed

  /**
   * The response status: a validation rejection's own, and 500 for the
   * empty-audio check and everything the broad `except` catches.
   */
  function StatusOf(f: Failure): (code: int)
    ensures code == 400 || code == 500
    ensures code == 400 <==> f.Rejected? && !f.rejection.ConversionFailed?
  {
    match f
    case Rejected(e) => Status(e)
    case _ => 500
  }

  /** The JSON fields of a successful `/api/tts` response that the model keeps. */
  datatype TtsResult = TtsResult(
    fileId: string, filename: string, sampleRate: int, textLength: nat, volume: real,
    fileSize: nat, downloadUrl: string)

  datatype Response =
    | Json(result: TtsResult)
    | AudioFile(bytes: seq<bv8>)
    | Error(status: int, failure: Failure)

  /** What a request comes to before an id is drawn: a failure, or the audio to store. */
  datatype Outcome =
    | Failed(failure: Failure)
    | Synthesized(textLength: nat, volume: real, sampleRate: int, samples: seq<real>, wav: seq<bv8>)

  /**
   * `/api/tts` as a function of the cached instance: the instance afterwards
   * and the outcome. A rejection leaves the cache alone; past validation the
   * cache is what `get_tts` leaves; audio to store is non-empty, from a
   * request whose text fits the limit.
   */
  function TtsPipeline(
    maxTextLength: int, body: Option<Body>, cached: Option<Handle>, dir: string, numThreads: int,
    env: Env, backend: Backend): (s: (Option<Handle>, Outcome))
    ensures ValidateTts(maxTextLength, body).Err? ==> s == (cached, Failed(Rejected(ValidateTts(maxTextLength, body).error)))
    ensures ValidateTts(maxTextLength, body).Ok? ==> s.0 == GetTtsStep(cached, dir, numThreads, env).0
    ensures s.1.Synthesized? ==>
      && s.0.Some? && 1 <= s.1.textLength <= maxTextLength && |s.1.samples| > 0 && s.1.sampleRate != 0
      && (s.1.volume != UNITY ==> forall i :: 0 <= i < |s.1.samples| ==> -1.0 <= s.1.samples[i] <= 1.0)
  {
    match ValidateTts(maxTextLength, body)
    case Err(e) => (cached, Failed(Rejected(e)))
    case Ok(req) =>
      var (instance, tts) := GetTtsStep(cached, dir, numThreads, env);
      match tts
      case Err(e) => (instance, Failed(InitFailed(e)))
      case Ok(h) =>
        match backend.generate(h, req.text, SPEAKER_ID, req.speed)
        case None => (instance, Failed(GenerateFailed))
        case Some(audio) =>
          if |audio.samples| == 0 then (instance, Failed(NoAudio))
          else
            var samples := ApplyVolumeGain(audio.samples, req.volume);
            // `len(audio_samples) / audio.sample_rate` raises before anything is written
            if audio.sampleRate == 0 then (instance, Failed(ZeroSampleRate))
            else
              match backend.writeWav(samples, audio.sampleRate)
              case None => (instance, Failed(WriteFailed))
              case Some(wav) => (instance, Synthesized(|req.text|, req.volume, audio.sampleRate, samples, wav))
  }

  /**
   * `/api/tts/stream` as a function of the cached instance. It computes no
   * duration, so a zero rate is not caught here; only the text is checked.
   */
  function StreamPipeline(
    maxTextLength: int, body: Option<Body>, cached: Option<Handle>, dir: string, numThreads: int,
    env: Env, backend: Backend): (s: (Option<Handle>, Outcome))
    ensures ValidateStream(maxTextLength, body).Err? ==> s == (cached, Failed(Rejected(ValidateStream(maxTextLength, body).error)))
    ensures ValidateStream(maxTextLength, body).Ok? ==> s.0 == GetTtsStep(cached, dir, numThreads, env).0
    ensures s.1.Synthesized? ==>
      && s.0.Some? && 1 <= s.1.textLength <= maxTextLength && |s.1.samples| > 0
      && (s.1.volume != UNITY ==> forall i :: 0 <= i < |s.1.samples| ==> -1.0 <= s.1.samples[i] <= 1.0)
  {
    match ValidateStream(maxTextLength, body)
    case Err(e) => (cached, Failed(Rejected(e)))
    case Ok(req) =>
      var (instance, tts) := GetTtsStep(cached, dir, numThreads, env);
      match tts
      case Err(e) => (instance, Failed(InitFailed(e)))
      case Ok(h) =>
        match backend.generate(h, req.text, SPEAKER_ID, req.speed)
        case None => (instance, Failed(GenerateFailed))
        case Some(audio) =>
          if |audio.samples| == 0 then (instance, Failed(NoAudio))
          else
            var samples := ApplyVolumeGain(audio.samples, req.volume);
            match backend.writeWav(samples, audio.sampleRate)
            case None => (instance, Failed(WriteFailed))
            case Some(wav) => (instance, Synthesized(|req.text|, req.volume, audio.sampleRate, samples, wav))
  }

  /**
   * A rejected request never reaches `get_tts` or the backend: its outcome
   * and the cached instance are the same whatever the model directory and the
   * backend do.
   */
  lemma RejectionPrecedesBackend(
    maxTextLength: int, body: Option<Body>, cached: Option<Handle>, dir: string, numThreads: int,
    env1: Env, backend1: Backend, env2: Env, backend2: Backend)
    requires ValidateTts(maxTextLength, body).Err?
    ensures TtsPipeline(maxTextLength, body, cached, dir, numThreads, env1, backend1)
         == TtsPipeline(maxTextLength, body, cached, dir, numThreads, env2, backend2)
         == (cached, Failed(Rejected(ValidateTts(maxTextLength, body).error)))
  {
  }

  /** The same for the stream handler, whose rejections are those of its text checks. */
  lemma StreamRejectionPrecedesBackend(
    maxTextLength: int, body: Option<Body>, cached: Option<Handle>, dir: string, numThreads: int,
    env1: Env, backend1: Backend, env2: Env, backend2: Backend)
    requires ValidateStream(maxTextLength, body).Err?
    ensures StreamPipeline(maxTextLength, body, cached, dir, numThreads, env1, backend1)
         == StreamPipeline(maxTextLength, body, cached, dir, numThreads, env2, backend2)
         == (cached, Failed(Rejected(ValidateStream(maxTextLength, body).error)))
  {
  }

  /**
   * A request that `/api/tts` gets as far as storing was accepted, and the
   * backend was asked, through the handle now cached, for the stripped text
   * of the body at the accepted speed.
   */
  lemma TtsSynthesizesRequestText(
    maxTextLength: int, body: Option<Body>, cached: Option<Handle>, dir: string, numThreads: int,
    env: Env, backend: Backend)
    requires TtsPipeline(maxTextLength, body, cached, dir, numThreads, env, backend).1.Synthesized?
    ensures ValidateTts(maxTextLength, body).Ok? && TrimmedText(body) == Some(ValidateTts(maxTextLength, body).value.text)
    ensures var instance := TtsPipeline(maxTextLength, body, cached, dir, numThreads, env, backend).0;
      instance.Some? && (cached.Some? ==> instance == cached)
    ensures var s := TtsPipeline(maxTextLength, body, cached, dir, numThreads, env, backend);
      var req := ValidateTts(maxTextLength, body).value;
      && s.1.textLength == |req.text| && s.1.volume == req.volume
      && backend.generate(s.0.value, req.text, SPEAKER_ID, req.speed).Some?
  {
    var req, h, audio, wav := TtsSynthesizedFrom(maxTextLength, body, cached, dir, numThreads, env, backend);
  }

  /**
   * What `/api/tts` stores: the gain of the accepted volume applied to the
   * backend's non-empty samples, produced at a non-zero rate (so unchanged
   * at volume 1.0, and otherwise each sample multiplied by the volume and
   * clipped, by `ApplyVolumeGain`'s contract); the stored bytes are their WAV
   * encoding at the backend's rate.
   */
  lemma TtsStoresGainedAudio(
    maxTextLength: int, body: Option<Body>, cached: Option<Handle>, dir: string, numThreads: int,
    env: Env, backend: Backend)
    requires TtsPipeline(maxTextLength, body, cached, dir, numThreads, env, backend).1.Synthesized?
    ensures var s := TtsPipeline(maxTextLength, body, cached, dir, numThreads, env, backend);
      var o, req := s.1, ValidateTts(maxTextLength, body).value;
      && ValidateTts(maxTextLength, body).Ok? && s.0.Some?
      && var audio := backend.generate(s.0.value, req.text, SPEAKER_ID, req.speed);
      && audio.Some? && |audio.value.samples| > 0 && o.sampleRate == audio.value.sampleRate != 0
      && o.samples == ApplyVolumeGain(audio.value.samples, o.volume)
      && |o.samples| == |audio.value.samples|
      && (o.volume == UNITY ==> o.samples == audio.value.samples)
      && backend.writeWav(o.samples, o.sampleRate) == Some(o.wav)
  {
    var req, h, audio, wav := TtsSynthesizedFrom(maxTextLength, body, cached, dir, numThreads, env, backend);
  }

  /** The values a successful `/api/tts` pipeline passed through, one stage at a time. */
  lemma TtsSynthesizedFrom(
    maxTextLength: int, body: Option<Body>, cached: Option<Handle>, dir: string, numThreads: int,
    env: Env, backend: Backend) returns (req: SynthesisRequest, h: Handle, audio: Audio, wav: seq<bv8>)
    requires TtsPipeline(maxTextLength, body, cached, dir, numThreads, env, backend).1.Synthesized?
    ensures ValidateTts(maxTextLength, body) == Ok(req)
    ensures GetTtsStep(cached, dir, numThreads, env) == (Some(h), Ok(h))
    ensures backend.generate(h, req.text, SPEAKER_ID, req.speed) == Some(audio)
    ensures |audio.samples| > 0 && audio.sampleRate != 0
    ensures backend.writeWav(ApplyVolumeGain(audio.samples, req.volume), audio.sampleRate) == Some(wav)
    ensures TtsPipeline(maxTextLength, body, cached, dir, numThreads, env, backend)
         == (Some(h), Synthesized(|req.text|, req.volume, audio.sampleRate, ApplyVolumeGain(audio.samples, req.volume), wav))
  {
    req := ValidateTts(maxTextLength, body).value;
    h := GetTtsStep(cached, dir, numThreads, env).1.value;
    audio := backend.generate(h, req.text, SPEAKER_ID, req.speed).value;
    wav := backend.writeWav(ApplyVolumeGain(audio.samples, req.volume), audio.sampleRate).value;
  }

  /**
   * The converse of `TtsSynthesizedFrom`: a request that passes validation,
   * `get_tts`, a non-empty `generate` at a non-zero rate and the write comes
   * to the gained audio and its bytes, ready to be stored.
   */
  lemma TtsSucceedsWhenAllStagesPass(
    maxTextLength: int, body: Option<Body>, cached: Option<Handle>, dir: string, numThreads: int,
    env: Env, backend: Backend, req: SynthesisRequest, h: Handle, audio: Audio, wav: seq<bv8>)
    requires ValidateTts(maxTextLength, body) == Ok(req)
    requires GetTtsStep(cached, dir, numThreads, env).1 == Ok(h)
    requires backend.generate(h, req.text, SPEAKER_ID, req.speed) == Some(audio)
    requires |audio.samples| > 0 && audio.sampleRate != 0
    requires backend.writeWav(ApplyVolumeGain(audio.samples, req.volume), audio.sampleRate) == Some(wav)
    ensures TtsPipeline(maxTextLength, body, cached, dir, numThreads, env, backend)
         == (Some(h), Synthesized(|req.text|, req.volume, audio.sampleRate, ApplyVolumeGain(audio.samples, req.volume), wav))
  {
  }

  /** A backend that produces no samples makes the request fail with a 500, with nothing to store. */
  lemma EmptyAudioFails(
    maxTextLength: int, body: Option<Body>, cached: Option<Handle>, dir: string, numThreads: int,
    env: Env, backend: Backend)
    requires ValidateTts(maxTextLength, body).Ok?
    requires GetTtsStep(cached, dir, numThreads, env).1.Ok?
    requires var req := ValidateTts(maxTextLength, body).value;
      var audio := backend.generate(GetTtsStep(cached, dir, numThreads, env).1.value, req.text, SPEAKER_ID, req.speed);
      audio.Some? && |audio.value.samples| == 0
    ensures var o := TtsPipeline(maxTextLength, body, cached, dir, numThreads, env, backend).1;
      o == Failed(NoAudio) && StatusOf(o.failure) == 500
  {
  }

  /**
   * Past validation nothing is a 400: a raising `get_tts`, `generate` or
   * `sf.write`, empty audio and a zero rate all end in a 500, through the
   * broad `except` or the empty-audio check.
   */
  lemma TtsFailurePastValidationIs500(
    maxTextLength: int, body: Option<Body>, cached: Option<Handle>, dir: string, numThreads: int,
    env: Env, backend: Backend)
    requires ValidateTts(maxTextLength, body).Ok?
    ensures var o := TtsPipeline(maxTextLength, body, cached, dir, numThreads, env, backend).1;
      o.Failed? ==> !o.failure.Rejected? && StatusOf(o.failure) == 500
  {
  }

  /** The same for the stream handler. */
  lemma StreamFailurePastValidationIs500(
    maxTextLength: int, body: Option<Body>, cached: Option<Handle>, dir: string, numThreads: int,
    env: Env, backend: Backend)
    requires ValidateStream(maxTextLength, body).Ok?
    ensures var o := StreamPipeline(maxTextLength, body, cached, dir, numThreads, env, backend).1;
      o.Failed? ==> !o.failure.Rejected? && StatusOf(o.failure) == 500
  {
  }

  /**
   * A request that `/api/tts/stream` gets as far as storing was accepted,
   * and the backend was asked, through the handle now cached, for the
   * stripped text of the body at the accepted speed.
   */
  lemma StreamSynthesizesRequestText(
    maxTextLength: int, body: Option<Body>, cached: Option<Handle>, dir: string, numThreads: int,
    env: Env, backend: Backend)
    requires StreamPipeline(maxTextLength, body, cached, dir, numThreads, env, backend).1.Synthesized?
    ensures ValidateStream(maxTextLength, body).Ok? && TrimmedText(body) == Some(ValidateStream(maxTextLength, body).value.text)
    ensures var instance := StreamPipeline(maxTextLength, body, cached, dir, numThreads, env, backend).0;
      instance.Some? && (cached.Some? ==> instance == cached)
    ensures var s := StreamPipeline(maxTextLength, body, cached, dir, numThreads, env, backend);
      var req := ValidateStream(maxTextLength, body).value;
      && s.1.textLength == |req.text| && s.1.volume == req.volume
      && backend.generate(s.0.value, req.text, SPEAKER_ID, req.speed).Some?
  {
    var req, h, audio, wav := StreamSynthesizedFrom(maxTextLength, body, cached, dir, numThreads, env, backend);
  }

  /**
   * What `/api/tts/stream` stores and sends: the gain of the accepted volume
   * applied to the backend's non-empty samples, and their WAV encoding at
   * the backend's rate, whatever that rate is.
   */
  lemma StreamStoresGainedAudio(
    maxTextLength: int, body: Option<Body>, cached: Option<Handle>, dir: string, numThreads: int,
    env: Env, backend: Backend)
    requires StreamPipeline(maxTextLength, body, cached, dir, numThreads, env, backend).1.Synthesized?
    ensures var s := StreamPipeline(maxTextLength, body, cached, dir, numThreads, env, backend);
      var o, req := s.1, ValidateStream(maxTextLength, body).value;
      && ValidateStream(maxTextLength, body).Ok? && s.0.Some?
      && var audio := backend.generate(s.0.value, req.text, SPEAKER_ID, req.speed);
      && audio.Some? && |audio.value.samples| > 0 && o.sampleRate == audio.value.sampleRate
      && o.samples == ApplyVolumeGain(audio.value.samples, o.volume)
      && |o.samples| == |audio.value.samples|
      && (o.volume == UNITY ==> o.samples == audio.value.samples)
      && backend.writeWav(o.samples, o.sampleRate) == Some(o.wav)
  {
    var req, h, audio, wav := StreamSynthesizedFrom(maxTextLength, body, cached, dir, numThreads, env, backend);
  }

  /** The values a successful `/api/tts/stream` pipeline passed through, one stage at a time. */
  lemma StreamSynthesizedFrom(
    maxTextLength: int, body: Option<Body>, cached: Option<Handle>, dir: string, numThreads: int,
    env: Env, backend: Backend) returns (req: StreamRequest, h: Handle, audio: Audio, wav: seq<bv8>)
    requires StreamPipeline(maxTextLength, body, cached, dir, numThreads, env, backend).1.Synthesized?
    ensures ValidateStream(maxTextLength, body) == Ok(req)
    ensures GetTtsStep(cached, dir, numThreads, env) == (Some(h), Ok(h))
    ensures backend.generate(h, req.text, SPEAKER_ID, req.speed) == Some(audio)
    ensures |audio.samples| > 0
    ensures backend.writeWav(ApplyVolumeGain(audio.samples, req.volume), audio.sampleRate) == Some(wav)
    ensures StreamPipeline(maxTextLength, body, cached, dir, numThreads, env, backend)
         == (Some(h), Synthesized(|req.text|, req.volume, audio.sampleRate, ApplyVolumeGain(audio.samples, req.volume), wav))
  {
    req := ValidateStream(maxTextLength, body).value;
    h := GetTtsStep(cached, dir, numThreads, env).1.value;
    audio := backend.generate(h, req.text, SPEAKER_ID, req.speed).value;
    wav := backend.writeWav(ApplyVolumeGain(audio.samples, req.volume), audio.sampleRate).value;
  }

  /**
   * The converse of `StreamSynthesizedFrom`: a stream request that passes
   * validation, `get_tts`, a non-empty `generate` and the write comes to the
   * gained audio and its bytes, whatever the rate.
   */
  lemma StreamSucceedsWhenAllStagesPass(
    maxTextLength: int, body: Option<Body>, cached: Option<Handle>, dir: string, numThreads: int,
    env: Env, backend: Backend, req: StreamRequest, h: Handle, audio: Audio, wav: seq<bv8>)
    requires ValidateStream(maxTextLength, body) == Ok(req)
    requires GetTtsStep(cached, dir, numThreads, env).1 == Ok(h)
    requires backend.generate(h, req.text, SPEAKER_ID, req.speed) == Some(audio)
    requires |audio.samples| > 0
    requires backend.writeWav(ApplyVolumeGain(audio.samples, req.volume), audio.sampleRate) == Some(wav)
    ensures StreamPipeline(maxTextLength, body, cached, dir, numThreads, env, backend)
         == (Some(h), Synthesized(|req.text|, req.volume, audio.sampleRate, ApplyVolumeGain(audio.samples, req.volume), wav))
  {
  }

  /** A backend that produces no samples makes a stream request fail with a 500, with nothing to store. */
  lemma StreamEmptyAudioFails(
    maxTextLength: int, body: Option<Body>, cached: Option<Handle>, dir: string, numThreads: int,
    env: Env, backend: Backend)
    requires ValidateStream(maxTextLength, body).Ok?
    requires GetTtsStep(cached, dir, numThreads, env).1.Ok?
    requires var req := ValidateStream(maxTextLength, body).value;
      var audio := backend.generate(GetTtsStep(cached, dir, numThreads, env).1.value, req.text, SPEAKER_ID, req.speed);
      audio.Some? && |audio.value.samples| == 0
    ensures var o := StreamPipeline(maxTextLength, body, cached, dir, numThreads, env, backend).1;
      o == Failed(NoAudio) && StatusOf(o.failure) == 500
  {
  }

  /**
   * `health_check()`: 200 when `get_tts` returns a handle, 503 when it
   * raises; a handle is built at most by this call's own `get_tts`.
   */
  method HealthCheck(manager: TtsManager, env: Env) returns (status: int)
    modifies manager
    ensures var (instance, r) := GetTtsStep(old(manager.instance), manager.modelDir, manager.numThreads, env);
      && manager.instance == instance
      && (status == 200 <==> r.Ok?)
      && (status == 503 <==> r.Err?)
    ensures manager.builds == old(manager.builds) + (if Builds(old(manager.instance), manager.modelDir, manager.numThreads, env) then 1 else 0)
  {
    var r := manager.GetTts(env);
    status := if r.Ok? then 200 else 503;
  }

  /**
   * `text_to_speech()`. A failure leaves the output directory as it was; a
   * success stores exactly one new file, under an id not in use before, and
   * the response names that id, its file name and its download URL. Only a
   * request that passes validation can build the handle.
   */
  method TextToSpeech(
    maxTextLength: int, body: Option<Body>, manager: TtsManager, store: OutputDir,
    env: Env, backend: Backend, now: real) returns (resp: Response)
    modifies manager, store
    ensures var (instance, o) := TtsPipeline(maxTextLength, body, old(manager.instance), manager.modelDir, manager.numThreads, env, backend);
      && manager.instance == instance
      && (o.Failed? ==> resp == Error(StatusOf(o.failure), o.failure) && store.files == old(store.files))
      && (o.Synthesized? ==>
            && resp.Json?
            && var id := resp.result.fileId;
            && FileName(id) !in old(store.files)
            && store.files == old(store.files)[FileName(id) := Artifact(o.wav, now)]
            && resp.result == TtsResult(id, FileName(id), o.sampleRate, o.textLength, o.volume, |o.wav|, DOWNLOAD_PREFIX + id))
    ensures manager.builds == old(manager.builds) +
      (if ValidateTts(maxTextLength, body).Ok? && Builds(old(manager.instance), manager.modelDir, manager.numThreads, env) then 1 else 0)
  {
    var validated := ValidateTts(maxTextLength, body);
    if validated.Err? {
      return Error(Status(validated.error), Rejected(validated.error));
    }
    var req := validated.value;
    var tts := manager.GetTts(env);
    if tts.Err? {
      return Error(500, InitFailed(tts.error));
    }
    var generated := backend.generate(tts.value, req.text, SPEAKER_ID, req.speed);
    if generated.None? {
      return Error(500, GenerateFailed);
    }
    var audio := generated.value;
    if |audio.samples| == 0 {
      return Error(500, NoAudio);
    }
    var samples := ApplyVolumeGain(audio.samples, req.volume);
    if audio.sampleRate == 0 {
      return Error(500, ZeroSampleRate);
    }
    FreshIdExists(store.files.Keys);
    var fileId: string :| FileName(fileId) !in store.files;
    var written := backend.writeWav(samples, audio.sampleRate);
    if written.None? {
      return Error(500, WriteFailed);
    }
    var wav := written.value;
    store.Save(fileId, wav, now);
    resp := Json(TtsResult(fileId, FileName(fileId), audio.sampleRate, |req.text|, req.volume, |wav|, DOWNLOAD_PREFIX + fileId));
  }

  /**
   * `text_to_speech_stream()`. Like `/api/tts`, but the response is the
   * stored file's bytes; the file stays in the output directory under
   * `tempId`, which the client is never told.
   */
  method TextToSpeechStream(
    maxTextLength: int, body: Option<Body>, manager: TtsManager, store: OutputDir,
    env: Env, backend: Backend, now: real) returns (resp: Response, ghost tempId: string)
    modifies manager, store
    ensures var (instance, o) := StreamPipeline(maxTextLength, body, old(manager.instance), manager.modelDir, manager.numThreads, env, backend);
      && manager.instance == instance
      && (o.Failed? ==> resp == Error(StatusOf(o.failure), o.failure) && store.files == old(store.files))
      && (o.Synthesized? ==>
            && resp == AudioFile(o.wav)
            && FileName(tempId) !in old(store.files)
            && store.files == old(store.files)[FileName(tempId) := Artifact(o.wav, now)])
    ensures manager.builds == old(manager.builds) +
      (if ValidateStream(maxTextLength, body).Ok? && Builds(old(manager.instance), manager.modelDir, manager.numThreads, env) then 1 else 0)
  {
    tempId := "";
    var validated := ValidateStream(maxTextLength, body);
    if validated.Err? {
      return Error(Status(validated.error), Rejected(validated.error)), tempId;
    }
    var req := validated.value;
    var tts := manager.GetTts(env);
    if tts.Err? {
      return Error(500, InitFailed(tts.error)), tempId;
    }
    var generated := backend.generate(tts.value, req.text, SPEAKER_ID, req.speed);
    if generated.None? {
      return Error(500, GenerateFailed), tempId;
    }
    var audio := generated.value;
    if |audio.samples| == 0 {
      return Error(500, NoAudio), tempId;
    }
    var samples := ApplyVolumeGain(audio.samples, req.volume);
    FreshIdExists(store.files.Keys);
    var id: string :| FileName(id) !in store.files;
    var written := backend.writeWav(samples, audio.sampleRate);
    if written.None? {
      return Error(500, WriteFailed), tempId;
    }
    tempId := id;
    var wav := written.value;
    store.Save(id, wav, now);
    resp := AudioFile(wav);
  }

  /** A bound on the lengths of a finite set of names. */
  ghost function LengthBound(names: set<string>): (n: nat)
    ensures forall s :: s in names ==> |s| < n
    decreases names
  {
    if names == {} then 0
    else
      var s :| s in names;
      var m := LengthBound(names - {s});
      if |s| < m then m else |s| + 1
  }

  /** Some id is always free: `uuid.uuid4()` is modelled as a choice among the ids not in use. */
  lemma FreshIdExists(names: set<string>)
    ensures exists id: string :: FileName(id) !in names
  {
    var id := seq(LengthBound(names), _ => 'x');
    assert |FileName(id)| > |id| == LengthBound(names);
    assert FileName(id) !in names;
  }

  /**
   * Two successive requests that both succeed get two different ids, and
   * both files are in the output directory afterwards.
   */
  method TwoRequests(
    maxTextLength: int, body: Option<Body>, manager: TtsManager, store: OutputDir,
    env: Env, backend: Backend, now: real) returns (first: Response, second: Response)
    modifies manager, store
    ensures first.Json? && second.Json? ==>
      && first.result.fileId != second.result.fileId
      && FileName(first.result.fileId) in store.files
      && FileName(second.result.fileId) in store.files
  {
    first := TextToSpeech(maxTextLength, body, manager, store, env, backend, now);
    second := TextToSpeech(maxTextLength, body, manager, store, env, backend, now);
  }
}
