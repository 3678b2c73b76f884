# Text-to-speech engine lifecycle and synthesis, in Dafny

This project models the engine core of a text-to-speech backend built on the Coqui
XTTS-v2 voice-cloning model. It has two modules, one per source file:

- `EngineBase` (`engine_base.dfy`) models `backend/src/tts/engine_base.py`. It holds the
  state every engine shares: a configuration map the engine never reassigns or
  mutates, an optional model handle and the `is_loaded` flag. It also holds the two
  operations the base class implements, `unload_model` and `health_check`. The class
  `TTSEngineBase<M>` keeps these as fields. The constructor and `UnloadModel` are
  proved against the pure functions `Initial` and `Unload`; `HealthCheck` states its
  report directly.
  `Consistent` is the flag/handle invariant: `is_loaded` holds exactly when `model` is
  not None.
- `Coqui` (`coqui.dfy`) models `backend/src/tts/coqui.py`. This covers:
  - the sixteen supported language codes;
  - the model name and the device choice (`auto` tries CUDA, then MPS, then the CPU);
  - the load transition;
  - `synthesize`, in order: lazy load, language check, length check, speaker-reference
    resolution, temporary WAV file, model call in voice-cloning or default-speaker
    mode, and removal of the temporary file after a successful call.

  The class `CoquiXTTSEngine` holds the inherited state in `base`. It adds `model_name`
  and `device`, plus a record of the calls it makes into the model library. The class
  `FileSystem` is the set of files on disk, as a map from path to contents.

  The engine's state-changing methods are proved equal to pure specification
  functions: `LoadModel` to `Load`, `Synthesize` to `Synthesis`, and its `try`-block
  part `CallModel` to `ModelCall`. The properties of `load_model` and `synthesize`
  live in the `ensures` clauses of those functions. `GetSupportedLanguages` and the
  `FileSystem` methods state their effect directly in their own contracts.

  `Run` applies any sequence of `load_model`, `unload_model` and `synthesize` calls. Its contract carries four facts through every sequence:
  - the flag/handle invariant holds;
  - files that already existed survive unchanged;
  - the record of model calls only grows;
  - every model call goes to a model this engine built from its own name and device.

The foreign parts are parameters:
- The availability of CUDA and MPS is two booleans given to the constructor.
- The model constructor `TTS(name).to(device)` returns an instance number or raises.
- `tempfile` supplies the temporary file name.
- `soundfile.write` may raise.
- `model.tts` returns samples or raises.

The answers of one `synthesize` call are bundled in an `Oracle`.

Behaviour of the code that the model keeps as written:
- A temporary reference file is removed only after the model call returns. When
  `model.tts` or `soundfile.write` raises, the file stays on disk. `Synthesis` states
  exactly which file is left behind.
- `load_model` is not idempotent and has no single-flight guard. Calling it on a loaded
  engine constructs a new model (`LoadTwiceConstructsTwice`).
- Both request checks raise a plain `ValueError`, and they run after the lazy load. An
  unloaded engine whose load fails reports the load failure even for an unsupported
  language or an over-long text.

## Model

| member | source | states |
|---|---|---|
| `EngineBase.Initial` | backend/src/tts/engine_base.py:11-12 | a new engine has no model and is not loaded, and the flag/handle invariant holds |
| `EngineBase.Unload` | backend/src/tts/engine_base.py:46-51 | after unloading there is no model. With a model, the flag is cleared. With no model, nothing changes (so unloading is idempotent). The flag/handle invariant is preserved and the engine ends unloaded |
| `EngineBase.TTSEngineBase.constructor` | backend/src/tts/engine_base.py:9-12 | the engine keeps the configuration it was given and its class name, with no model loaded |
| `EngineBase.TTSEngineBase.UnloadModel` | backend/src/tts/engine_base.py:46-51 | the new model and flag are `Unload` of the old ones, and a valid engine stays valid and unloaded; the configuration is a constant no method can reassign |
| `EngineBase.TTSEngineBase.HealthCheck` | backend/src/tts/engine_base.py:53-59 | reports the class name, the current `is_loaded` and the stored configuration, and modifies nothing |
| `Coqui.SupportedLanguagesDistinct` | backend/src/tts/coqui.py:14-17 | the supported list holds sixteen pairwise different codes, English among them |
| `Coqui.ModelName` | backend/src/tts/coqui.py:21 | the model name is the configured `model_path` when present, otherwise the XTTS-v2 identifier |
| `Coqui.SelectDevice` | backend/src/tts/coqui.py:24-34 | a configured device other than "auto" passes through unchanged. For "auto" or a missing key, the result is one of cuda/mps/cpu: cuda exactly when CUDA is available, mps exactly when CUDA is not and MPS is |
| `Coqui.MaxLength` | backend/src/tts/coqui.py:69 | the limit is the `max_length` keyword when passed, otherwise 500 |
| `Coqui.Validate` | backend/src/tts/coqui.py:64-71 | a request passes exactly when its language is supported and its length is at most the limit (so a text of exactly the limit passes). An unsupported language is reported before any length problem |
| `Coqui.PathText` | backend/src/tts/coqui.py:79-80 | a `Path` reference renders as a non-empty string, equal to its text unless that text is empty |
| `Coqui.SpeakerWavPath` | backend/src/tts/coqui.py:77-86 | the resolved path is absent exactly when no reference is given. A string path is kept as-is, a `Path` gives `str(Path(p))` (its own text when non-empty, "." for the empty path), and in-memory samples give the temporary file's name |
| `Coqui.CloningReference` | backend/src/tts/coqui.py:88-107 | the model gets a `speaker_wav` (voice cloning) exactly for a non-empty string path, a `Path`, or in-memory samples written to a named file. An empty string path selects the default speaker. A non-empty string path is passed unchanged, a `Path` as `str(Path(p))`, and in-memory samples as the temporary file's name |
| `Coqui.Load` | backend/src/tts/coqui.py:36-50 | a successful construction installs a model built from the engine's name and device and sets the flag, even when a model was loaded before. A failed one changes nothing, so the engine can retry. The flag/handle invariant is preserved |
| `Coqui.Synthesis` | backend/src/tts/coqui.py:52-117 | the load comes first and only on an unloaded engine, and a load failure propagates with nothing else done. A refused request never reaches the model and creates no file. The model is called exactly once when the request gets through, with this engine's model and the resolved speaker mode. The result is OK exactly when that call returns, and it is the model's audio. Existing files are never removed or altered. On success no file is left. The writer's and the model's exceptions are re-raised unchanged. When the model raises, the temporary file remains with the reference samples at 22050 Hz. When the writer raises, it remains incomplete |
| `Coqui.ModelCall` | backend/src/tts/coqui.py:73-117 | the engine state and load count are untouched. If the writer raises, its exception is re-raised before any model call, and the new file stays incomplete. Otherwise the model is called exactly once, with this engine's model and the speaker reference in voice-cloning or default-speaker mode. A raising call is re-raised unchanged, and a written reference file stays. A returning call gives its audio and leaves the files exactly as they were |
| `Coqui.Apply` | backend/src/tts/coqui.py:36-117 | one `load_model`, `unload_model` or `synthesize` preserves the flag/handle invariant and existing files. It adds at most one model call, to a model built from this engine's name and device |
| `Coqui.Run` | backend/src/tts/coqui.py:36-117 | over any sequence of loads, unloads and syntheses: the flag/handle invariant holds, existing files survive unchanged, the model-call record only grows, and every model call goes to this engine's own model |
| `Coqui.ReloadAfterUnload` | backend/src/tts/coqui.py:61-62 | after `unload_model` the engine is unloaded, and the next `synthesize` loads the model again, installing a fresh one when the load succeeds |
| `Coqui.LoadTwiceConstructsTwice` | backend/src/tts/coqui.py:36-45 | two explicit loads construct two models, and the second replaces the first (no idempotence guard) |
| `Coqui.FileSystem.CreateTemp` | backend/src/tts/coqui.py:83 | a new empty file appears under a name no file had |
| `Coqui.FileSystem.WriteWav` | backend/src/tts/coqui.py:85 | the file holds the samples at the given rate, or the write raises and the file is untouched |
| `Coqui.FileSystem.Unlink` | backend/src/tts/coqui.py:110-111 | the named file is gone, and a missing file is not an error |
| `Coqui.CoquiXTTSEngine.constructor` | backend/src/tts/coqui.py:19-22 | a fresh unloaded base engine over the given configuration, named `CoquiXTTSEngine`, with `ModelName` and `SelectDevice` of that configuration |
| `Coqui.CoquiXTTSEngine.LoadModel` | backend/src/tts/coqui.py:36-50 | the new state is `Load` of the old one. It re-raises the constructor's exception, and it counts one model construction |
| `Coqui.CoquiXTTSEngine.Synthesize` | backend/src/tts/coqui.py:52-117 | the result, engine state, files and model-call record are exactly those of `Synthesis`, and the engine stays valid |
| `Coqui.CoquiXTTSEngine.CallModel` | backend/src/tts/coqui.py:73-117 | on a loaded engine, the speaker resolution, temporary file, model call and cleanup give exactly `ModelCall` |
| `Coqui.CoquiXTTSEngine.GetSupportedLanguages` | backend/src/tts/coqui.py:119-121 | returns a newly allocated list equal to the sixteen supported codes. Writing to it cannot reach the class constant |
| `Coqui.SynthesizeWithDefaults` | backend/src/tts/coqui.py:52-58 | `synthesize(text)` with every default is `Synthesis` with language "en", no speaker reference and no `max_length` (so the 500-character limit) |
| `Coqui.UnloadThenHealthCheck` | backend/src/tts/engine_base.py:46-59 | `unload_model` followed by `health_check` reports `CoquiXTTSEngine`, not loaded, with the engine's configuration |

## Left out

- `backend/src/tts/audio.py` is not part of this model. Its functions wrap librosa and soundfile (load, resample, write, encode, trim), and its normalisation is floating-point arithmetic.
- `backend/src/utils/config.py` is not part of this model. It holds settings classes and YAML/environment loading. The engine receives the resulting configuration as a map.
- The neural model, its inference and the `torch` device probes are foreign calls. Their outcomes are parameters: the load's instance number or exception, the samples or exception of `model.tts`, and two availability booleans.
- asyncio and the thread-pool dispatch of `run_in_executor` are not modelled. Every operation runs to completion before the next one starts. The code has no lock on loading, so concurrent loads are not modelled either.
- `print` logging, and the conversion of the model's output to `float32`. The model's samples are returned as they come.
- `Coqui.PathText`: models only the empty-path case of `str(Path(p))`. Other pathlib normalisations (repeated or trailing separators, a leading `./`) are not modelled.
- `Coqui.SpeakerWavPath`: a reference that is neither a string, a `Path` nor a NumPy array (a plain list, say) is not modelled. The code would write it to a temporary file and never remove that file, because the cleanup tests for `np.ndarray`.
- A failure of `tempfile.NamedTemporaryFile` itself is not modelled. The temporary name is assumed non-empty and not already in use, which the library guarantees.
- Keyword arguments other than `max_length` are ignored by the code and are not represented. A `max_length` is modelled as an integer.
- The message texts of the two `ValueError`s are represented by their content (the rejected language, the limit), not by the formatted string.
- The configuration is modelled as a value. The code keeps a reference to the caller's dictionary, and `health_check` hands out that same object. So later changes the caller makes to it are visible to the engine, and changes made through the report reach the engine's configuration. The model does not capture that sharing.
- `Coqui.FileSystem.Unlink`: cannot fail in the model. `Path.unlink(missing_ok=True)` still raises on other errors (no permission, a directory under that name). The code would then re-raise the error and lose the synthesized audio. That failure path is not modelled.
