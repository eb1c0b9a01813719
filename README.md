# Sherpa-ONNX TTS service layer, modelled in Dafny

This project models the service layer of a small text-to-speech HTTP
service (`tts_service.py`). The speech engine itself (`sherpa_onnx`) and
the WAV writer (`soundfile`) are foreign code; the model treats them as
functions passed in. What is modelled:

- **Volume gain** (`VolumeGain`, `gain.dfy`): `apply_volume_gain` returns
  the samples untouched at exactly unity gain. At any other gain, each
  sample is multiplied by the volume and hard-clipped to [-1.0, 1.0].
- **Request validation** (`RequestValidation`, `validation.dfy`): the prefix
  of the `/api/tts` and `/api/tts/stream` handlers. It goes from the parsed
  JSON body to a rejection or an accepted request. The checks come in the
  code's order, and the first one that fails decides the answer. Absent
  fields take their defaults. A field on which `.strip()`, `float(...)` or
  `.lower()` raises becomes a 500, because the handlers' broad `except`
  catches it.
- **Lazy model construction** (`ModelManager`, `model_manager.dfy`):
  `get_tts` as a class holding the cached `_tts_instance`. A cold call
  checks the required resources in a fixed order, then collects the
  optional rule FSTs in a fixed order and comma-joins them. A failed call
  caches nothing, and a cached handle is returned unchanged for ever.
- **Output directory** (`ArtifactStore`, `artifact_store.dfy`): a map from
  file name to (bytes, modification time). It supports save, download
  lookup and one cleanup pass, which deletes files older than 3600 seconds.
- **Handlers** (`TtsService`, `service.dfy`): `/health`, `/api/tts` and
  `/api/tts/stream`. They compose the parts in the code's order: validate,
  `get_tts`, generate, reject empty audio, gain, save under a fresh id,
  respond.
- `PyStr` (`pystr.dfy`) gives Python's `str.strip`, `",".join` and
  `split`, and `str.lower` on ASCII letters only. `Wrappers` gives `Option`
  and `Result`.

The model follows what the code does, including where that departs from
what one might expect of such a service:

- A `get_tts` call that raises leaves `_tts_instance` at `None`, so the next
  call tries to build the handle again. The failure is not permanent.
- `cleanup_old_files` wraps its whole loop in one `try`. The first deletion
  that raises ends the pass, and the files not yet scanned stay. It does not
  log and carry on.
- `float(speed)`, `float(volume)` and `.lower()` on the format run before
  the emptiness check. A malformed value is therefore a 500 that wins over
  an empty text, not a 400.
- A text that is present but empty is rejected as `EmptyText`, a different
  answer from the missing-`text` check.
- The stream handler runs only the text checks. It accepts any speed and
  volume `float` can read, and it never reads `format`. It still writes a
  file to the output directory under an id the client is never told.

## Model

| member | source | states |
|---|---|---|
| VolumeGain.Clip | tts_service.py:70 | the result lies in [-1.0, 1.0], and a value already in range is kept |
| VolumeGain.ClipIsNearest | tts_service.py:70 | the clipped value is the point of [-1.0, 1.0] nearest to the input |
| VolumeGain.ClipMonotone | tts_service.py:70 | clipping never reverses the order of two values |
| VolumeGain.Gained | tts_service.py:67-70 | one gained sample always lies in [-1.0, 1.0] |
| VolumeGain.Scale | tts_service.py:64-72 | same length, and element i is the clipped product of input sample i and the volume |
| VolumeGain.ApplyVolumeGain | tts_service.py:49-72 | at volume exactly 1.0 the input comes back unchanged; otherwise the same length, element-wise clip(s[i]*volume), every element in [-1.0, 1.0] |
| VolumeGain.GainIsPerSample | tts_service.py:63-72 | no cross-sample state: the gain of a concatenation is the concatenation of the gains |
| VolumeGain.GainPreservesOrder | tts_service.py:63-72 | with a non-negative volume, a louder input sample never gives a quieter output sample |
| VolumeGain.AttenuationNeverClips | tts_service.py:63-72 | a volume in [0, 1] on in-range samples gives exactly each product, with no clipping |
| VolumeGain.ProductInRange | tts_service.py:67-70 | an in-range sample times a volume in [0, 1] stays in range |
| VolumeGain.UnityGainSkipsClipping | tts_service.py:60-61 | unity gain passes an out-of-range sample through, while gain 1.5 clips it |
| PyStr.IsSpace | tts_service.py:205 | space, tab, newline and carriage return are whitespace to `strip()`; no printable ASCII character is |
| PyStr.Strip | tts_service.py:205 | `strip()` gives a slice no longer than the input that neither starts nor ends with whitespace |
| PyStr.StripShape | tts_service.py:205 | the stripped text sits after a whitespace prefix and before a whitespace suffix of the input |
| PyStr.StripEmpty | tts_service.py:205 | the stripped text is empty exactly when the input is all whitespace |
| PyStr.StripUnpadded | tts_service.py:205 | a text with no whitespace at either end is its own strip |
| PyStr.StripIdempotent | tts_service.py:205 | stripping twice is stripping once |
| PyStr.Join | tts_service.py:105 | the join is empty for no parts, starts with the first part, and puts the separator right after it when there are more |
| PyStr.Lower | tts_service.py:208 | on ASCII letters, `lower()` keeps the length and lowers each character |
| PyStr.LowerChar | tts_service.py:208 | the result is a lower-case ASCII letter exactly when the input is an ASCII letter; any other character is kept |
| PyStr.LowerCharIs | tts_service.py:208 | under the ASCII lowering, a character lowers to a given lower-case letter exactly when it is that letter or its capital |
| PyStr.Split | tts_service.py:105 | splitting at a separator gives at least one piece, and no piece holds the separator |
| PyStr.SplitWithoutSeparator | tts_service.py:105 | a string without the separator splits into itself alone |
| PyStr.SplitAtSeparator | tts_service.py:105 | a separator closes the piece before it |
| PyStr.SplitJoin | tts_service.py:105 | splitting a comma-join gives the parts back when no part holds a comma |
| RequestValidation.Status | tts_service.py:202-226 | every rejection is a 400 or a 500, and a 500 exactly for a conversion that raised (the broad `except` at 282-287) |
| RequestValidation.FloatOf | tts_service.py:206-207 | `float(data.get(key, default))`: an absent key gives the default, a number gives itself, and it fails exactly on a value `float` rejects |
| RequestValidation.StringOf | tts_service.py:208 | `data.get('format', 'wav')`: an absent key gives the default, a string gives itself, and it fails exactly on a non-string |
| RequestValidation.TrimmedText | tts_service.py:205 | there is a stripped text exactly when the body has a string `text`; it is no longer than the raw text and has no whitespace at either end |
| RequestValidation.ValidateTts | tts_service.py:199-226 | an accepted request's text is the strip of the body's `text`, non-empty and at most MAX_TEXT_LENGTH long; its speed and volume are the body's numbers (1.0 and 1.5 when absent) and in [0.5, 2.0] and [0.5, 3.0]; its format is the body's format ("wav" when absent) lowered, equal to "wav" |
| RequestValidation.ValidateStream | tts_service.py:303-318 | an accepted stream request's text is the strip of the body's `text`, non-empty and at most MAX_TEXT_LENGTH long; its speed and volume are the body's numbers, or 1.0 and 1.5 when absent, with no range check |
| RequestValidation.TtsAcceptsIffAllPass | tts_service.py:202-226 | `/api/tts` accepts exactly when every one of its checks passes, each judged on its own |
| RequestValidation.TtsRejectsAtFirstFailure | tts_service.py:202-226 | a `/api/tts` rejection is the first check in the code's order that fails |
| RequestValidation.StreamAcceptsIffAllPass | tts_service.py:305-318 | the stream handler accepts exactly when its six checks pass |
| RequestValidation.StreamRejectsAtFirstFailure | tts_service.py:305-318 | a stream rejection is one of its own checks, and the first that fails |
| RequestValidation.StreamSkipsRangeAndFormatChecks | tts_service.py:303-318 | the stream handler accepts what `/api/tts` accepts, with the same values; its rejections are those of `/api/tts`; a range or format rejection of `/api/tts` is accepted there |
| RequestValidation.TtsDefaults | tts_service.py:206-208 | whatever the other fields hold, an absent speed is 1.0 and an absent volume 1.5 in both handlers, and an absent speed, volume or format is never the reason for a rejection |
| RequestValidation.ExampleDefaults | tts_service.py:205-208 | a body with only an acceptable text is accepted as its strip with 1.0, 1.5 and "wav" |
| RequestValidation.TtsRangesInclusive | tts_service.py:219-223 | speed and volume are accepted exactly within their closed ranges, and speed is judged first |
| RequestValidation.FormatAcceptedIff | tts_service.py:208 | the format is accepted exactly when it spells "wav" in any mix of case |
| RequestValidation.ExampleEmptyText | tts_service.py:211-212 | an empty or all-blank text is rejected as empty, even with an out-of-range speed |
| RequestValidation.ExampleTooLong | tts_service.py:214-217 | 600 characters are too long under a limit of 500 |
| RequestValidation.ExampleFields | tts_service.py:202-226 | volume 5.0 is out of range; an unreadable speed is a 500 conversion failure; "WAV" is accepted; a missing text is reported first |
| RequestValidation.ExampleStreamLax | tts_service.py:305-318 | the stream handler accepts speed 5.0 and ignores a non-string format |
| ArtifactStore.Retained | tts_service.py:403-409 | after a complete cleanup pass, exactly the files not older than 3600 s remain, with their contents unchanged |
| ArtifactStore.Expired | tts_service.py:406-407 | only a file modified before `now` can be expired, and a file exactly 3600 s old is not |
| ArtifactStore.FileName | tts_service.py:249 | the file name is the id followed by ".wav" |
| ArtifactStore.FileNameInjective | tts_service.py:249 | different ids are stored under different file names |
| ArtifactStore.RetainedIdempotent | tts_service.py:403-409 | a second pass at the same instant deletes nothing more |
| ArtifactStore.RetainedShrinksOverTime | tts_service.py:403-409 | a later pass deletes at least what an earlier one does |
| ArtifactStore.SavedFileRetrievableWithinWindow | tts_service.py:252-254 | a saved file survives every pass up to 3600 s after its save, with its bytes intact |
| ArtifactStore.SavedFileGoneAfterWindow | tts_service.py:407-408 | a saved file is gone after any complete pass later than 3600 s after its save |
| ArtifactStore.OutputDir.constructor | tts_service.py:38-42 | the directory holds what `makedirs(exist_ok=True)` finds there: nothing on a first start, an earlier run's files after a restart |
| ArtifactStore.OutputDir.Save | tts_service.py:248-254 | writing `<id>.wav` sets that one entry to the bytes and the current time, and changes nothing else |
| ArtifactStore.OutputDir.Download | tts_service.py:356-366 | not found exactly when `<id>.wav` is absent, otherwise its bytes; the directory is not changed |
| ArtifactStore.OutputDir.CleanupOldFiles | tts_service.py:399-411 | only expired files are removed and nothing is altered; the pass completes exactly when no expired file fails to delete, and then exactly the retained files remain |
| ModelManager.FirstMissing | tts_service.py:89-96 | the first required resource, in the order model.onnx, lexicon.txt, tokens.txt, dict, that does not exist |
| ModelManager.JoinPath | tts_service.py:83-86 | `os.path.join` adds at most one separator between the directory and the name |
| ModelManager.JoinPathShape | tts_service.py:83-86 | the joined path starts with the directory and ends with the name |
| ModelManager.PresentPaths | tts_service.py:99-103 | the present paths, each an existing path of one of the names, and every present name listed |
| ModelManager.Initialize | tts_service.py:78-126 | a cold call builds a handle exactly when every required resource exists, the config validates and the constructor returns, with the checked model, lexicon, tokens and dict paths, provider "cpu", the rule FSTs and the thread count in its configuration; with every resource present, an invalid config is reported as such, and a valid one whose constructor raises as a construction failure |
| ModelManager.MissingResourceReported | tts_service.py:89-96 | a missing resource raises the error naming the first missing one in order |
| ModelManager.RuleFstOrder | tts_service.py:99-105 | the rule FSTs are collected in the order phone, date, number, each present one once |
| ModelManager.RuleFsts | tts_service.py:99-105 | `rule_fsts` is empty when no rule FST is present, and otherwise splits back at commas into the present FST paths when the directory name has no comma |
| ModelManager.GetTtsStep | tts_service.py:74-131 | one call of `get_tts`: a cached handle is returned and kept; otherwise the cache afterwards holds the handle returned, or nothing when the call raises |
| ModelManager.Builds | tts_service.py:78-126 | a call builds exactly when nothing was cached and the call leaves a handle cached |
| ModelManager.Calls | tts_service.py:74-131 | successive calls give one outcome each, and once a handle is cached every outcome is that handle |
| ModelManager.BuildCount | tts_service.py:74-131 | no more builds than calls, and none at all once a handle is cached |
| ModelManager.AtMostOneBuild | tts_service.py:78-131 | however the model directory changes between calls, at most one call builds a handle |
| ModelManager.FirstSuccessIsShared | tts_service.py:78-131 | after the first successful call, every later call returns that same handle |
| ModelManager.CheckRequired | tts_service.py:89-96 | the loop over the required resources stops at the first missing one |
| ModelManager.CollectRuleFsts | tts_service.py:99-103 | the loop over the FST names collects the present paths in order |
| ModelManager.TtsManager.constructor | tts_service.py:45-47 | the instance starts uncached, with no handle built |
| ModelManager.TtsManager.GetTts | tts_service.py:74-131 | a cached handle is returned with nothing built; a cold call caches and returns the handle it builds, or raises and leaves the cache empty |
| TtsService.RejectionPrecedesBackend | tts_service.py:199-231 | a rejected `/api/tts` request never reaches `get_tts` or the backend |
| TtsService.StreamRejectionPrecedesBackend | tts_service.py:303-324 | a rejected stream request never reaches `get_tts` or the backend |
| TtsService.StatusOf | tts_service.py:199-287 | a failure is a 400 exactly when it is a validation rejection other than a raised conversion, and a 500 otherwise |
| TtsService.TtsPipeline | tts_service.py:199-254 | a rejection leaves the cache alone; past validation the cache is what `get_tts` leaves; audio to store is non-empty at a non-zero rate, from a text within the limit, and in [-1.0, 1.0] when the volume is not 1.0 |
| TtsService.StreamPipeline | tts_service.py:303-338 | the same for the stream handler, without the sample-rate check: a rejection leaves the cache alone; past validation the cache is what `get_tts` leaves; audio to store is non-empty, from a text within the limit, and in [-1.0, 1.0] when the volume is not 1.0 |
| TtsService.TtsSynthesizesRequestText | tts_service.py:205-234 | a request that gets as far as storing was accepted, and the backend was asked, through the now-cached handle, for the strip of the body's text at the accepted speed |
| TtsService.TtsSynthesizedFrom | tts_service.py:199-254 | a successful pipeline passed through acceptance, `get_tts`, a non-empty `generate` and a write, in that order |
| TtsService.TtsStoresGainedAudio | tts_service.py:234-254 | what `/api/tts` stores is the accepted volume's gain applied to the backend's non-empty samples produced at a non-zero rate (unchanged at volume 1.0), encoded as WAV at the backend's rate |
| TtsService.TtsSucceedsWhenAllStagesPass | tts_service.py:228-254 | a request that passes validation, `get_tts`, a non-empty `generate` at a non-zero rate and the write reaches the gained audio and its WAV bytes, ready to store (the converse of TtsSynthesizedFrom) |
| TtsService.EmptyAudioFails | tts_service.py:237-238 | a backend result with zero samples makes the `/api/tts` outcome the empty-audio failure, whose status is 500 |
| TtsService.TtsFailurePastValidationIs500 | tts_service.py:228-287 | once `/api/tts` has accepted a request, every failure (a raising `get_tts`, `generate` or `sf.write`, empty audio, a zero rate) is a 500, never a rejection |
| TtsService.StreamFailurePastValidationIs500 | tts_service.py:320-350 | once the stream handler has accepted a request, every failure is a 500, never a rejection |
| TtsService.StreamSynthesizesRequestText | tts_service.py:308-324 | a stream request that gets as far as storing was accepted, and the backend was asked, through the now-cached handle, for the strip of the body's text at the accepted speed |
| TtsService.StreamSynthesizedFrom | tts_service.py:303-338 | a successful stream pipeline passed through acceptance, `get_tts`, a non-empty `generate` and a write, in that order |
| TtsService.StreamStoresGainedAudio | tts_service.py:323-338 | what the stream handler stores and returns is the accepted volume's gain applied to the backend's non-empty samples (unchanged at volume 1.0), encoded as WAV at the backend's rate |
| TtsService.StreamSucceedsWhenAllStagesPass | tts_service.py:320-338 | a stream request that passes validation, `get_tts`, a non-empty `generate` and the write reaches the gained audio and its WAV bytes, whatever the rate (the converse of StreamSynthesizedFrom) |
| TtsService.StreamEmptyAudioFails | tts_service.py:326-327 | a backend result with zero samples makes the stream outcome the empty-audio failure, whose status is 500 |
| TtsService.HealthCheck | tts_service.py:133-149 | 200 exactly when `get_tts` returns a handle, 503 exactly when it raises; a handle is built only by that call |
| TtsService.TextToSpeech | tts_service.py:174-287 | a failure leaves the output directory unchanged; a success adds exactly one file under an id not in use before, and the response's `filename` and `download_url` are derived from that id; only an accepted request can build the handle |
| TtsService.TextToSpeechStream | tts_service.py:289-350 | a failure leaves the output directory unchanged; a success stores the returned bytes under a fresh id; only an accepted request can build the handle |
| TtsService.FreshIdExists | tts_service.py:248 | some id is always free in a finite directory |
| TtsService.TwoRequests | tts_service.py:248-254 | two successful requests get two distinct ids, and both files are present afterwards |

## Left out

- HTTP plumbing is not modelled: Flask routing, JSON parsing, CORS,
  `send_file`, waitress, the `/api/info` catalogue and the HTML index page.
  A request body is given as an already-parsed `Body`, or as absent.
- `threading.Lock` and the double-checked locking are concurrency. Only the
  sequential outcome of `get_tts` is modelled.
- `start_cleanup_thread`'s sleep loop is left out. One cleanup pass is
  modelled, with the clock reading as a parameter.
- `sherpa_onnx` configuration, its `validate()`, `OfflineTts` construction
  and `generate` are foreign. Whether `validate()` passes and whether the
  constructor returns are boolean inputs, the handle is a stand-in, and
  `generate` is a function parameter that may raise.
- `soundfile` WAV encoding with PCM_16 conversion is foreign. It is a
  function parameter returning bytes, or raising.
- TtsService.TextToSpeech: an `sf.write` that raises is modelled as writing
  no file. A write that fails part-way and leaves a partial `<id>.wav`
  behind is not modelled, so "a failure leaves the directory unchanged"
  holds only for writes that fail before creating the file.
- TtsService.TextToSpeechStream: the same holds for its `sf.write`.
- Timing, `duration`, `rtf`, `round` and the `timestamp` field are left
  out: they are clocks and floating point. The division by the sample rate
  is kept only for its failure on a zero rate.
- VolumeGain.ApplyVolumeGain: float32 rounding and the conversion to a
  numpy array are not modelled; samples are exact reals.
- RequestValidation.ValidateTts: NaN and infinities from `float(...)` are
  not modelled; numbers are exact reals. Both would be rejected by the
  range checks anyway.
- RequestValidation.ValidateStream: NaN and infinities are not modelled
  either. This handler has no range checks, so in the code such a speed
  reaches `generate` and such a volume reaches the gain.
- PyStr.Lower: only ASCII A-Z are lowered. Python's `str.lower()` applies
  full Unicode case mapping, which can change other characters and even the
  length ("İ" lowers to two characters). No non-ASCII character lowers to a
  string containing w, a or v. So the format decision is unaffected.
- PyStr.LowerChar: a non-ASCII character is kept as it is. Python's
  `lower()` lowers non-ASCII letters too ("É" becomes "é"). None of them
  becomes w, a or v, so the format decision is unaffected.
- PyStr.LowerCharIs: it holds for the ASCII lowering only. Under Python's
  `lower()`, KELVIN SIGN U+212A also lowers to "k".
- A body that is JSON but not an object is not modelled, and neither is a
  `get_json` that raises on a wrong content type.
- ArtifactStore.OutputDir.CleanupOldFiles: the `os.path.isfile` test is not
  modelled, because the directory holds only files here.
- ArtifactStore.OutputDir.CleanupOldFiles: a failing `os.listdir`,
  `getmtime` or `isfile` is not modelled. Only a failing `os.remove` is an
  input, as a set of undeletable names.
- `download_audio`'s own `except` branch (500) is not modelled, because
  the existence check cannot raise here.
- Logging is left out.
- `uuid.uuid4()` randomness is replaced by a choice of any id whose file is
  not yet in the directory.
