/** The Coqui XTTS-v2 engine (backend/src/tts/coqui.py): device selection, the model
    load transition, and `synthesize`, which lazily loads the model, validates the
    language and the text length, resolves the speaker reference (writing in-memory
    audio to a temporary file), calls the model and removes the temporary file.

    The neural model, the `torch` availability probes, `tempfile` and `soundfile`
    are foreign: their answers arrive as parameters (`cudaAvailable`, `mpsAvailable`,
    an `Oracle`), and the filesystem is a map from path to file contents. */
module Coqui {
  import opened EngineBase

  /** `self.__class__.__name__` for this engine. */
  const ENGINE_CLASS_NAME: string := "CoquiXTTSEngine"

  /** `SUPPORTED_LANGUAGES`, in the order the class lists them. */
  const SUPPORTED_LANGUAGES: seq<string> :=
    ["en", "es", "fr", "de", "it", "pt", "pl", "tr",
     "ru", "nl", "cs", "ar", "zh-cn", "ja", "hu", "ko"]

  const DEFAULT_MODEL_NAME: string := "tts_models/multilingual/multi-dataset/xtts_v2"

  /** The text limit when the caller passes no `max_length`. */
  const DEFAULT_MAX_LENGTH: int := 500

  /** The sample rate an in-memory speaker reference is written at. */
  const REFERENCE_SAMPLE_RATE: nat := 22050

  /** Audio samples; the model's output is passed on as it comes. */
  type AudioBuffer = seq<real>

  /** What a foreign call raised, as an opaque description. */
  type Cause = string

  /** How a foreign call ended: it returned a value or raised. */
  datatype Outcome<T> = Returns(value: T) | Raises(cause: Cause)

  /** The loaded model: `TTS(model_name).to(device)`; `instance` tells apart two
      constructions from the same name and device. */
  datatype XttsModel = XttsModel(name: ConfigValue, device: ConfigValue, instance: nat)

  /** Why a request was refused. Both reasons are raised as a plain `ValueError`; the
      reason is the content of its message. */
  datatype ValueReason = LanguageNotSupported(language: string) | TextTooLong(maxLength: int)

  /** What `synthesize` raises: its own `ValueError`, or whatever the model loader,
      the audio writer or the model re-raised. */
  datatype Error = ValueError(reason: ValueReason) | Propagated(cause: Cause)

  datatype Result<T> = Ok(value: T) | Err(error: Error)

  /** `dict.get(key, default)`. */
  function ConfigGet(config: Config, key: string, default: ConfigValue): ConfigValue {
    if key in config then config[key] else default
  }

  /** The list names sixteen different languages, English among them. */
  lemma SupportedLanguagesDistinct()
    ensures |SUPPORTED_LANGUAGES| == 16 && "en" in SUPPORTED_LANGUAGES
    ensures forall i, j | 0 <= i < j < |SUPPORTED_LANGUAGES| :: SUPPORTED_LANGUAGES[i] != SUPPORTED_LANGUAGES[j]
  {
  }

  /** `model_name`: the configured `model_path`, or the XTTS-v2 identifier. */
  function ModelName(config: Config): (name: ConfigValue)
    ensures "model_path" in config ==> name == config["model_path"]
    ensures "model_path" !in config ==> name == Text(DEFAULT_MODEL_NAME)
  {
    ConfigGet(config, "model_path", Text(DEFAULT_MODEL_NAME))
  }

  /** `_get_device`: a configured device other than "auto" is kept as it is; "auto",
      or no device at all, picks CUDA when available, else MPS when available, else
      the CPU. */
  function SelectDevice(config: Config, cudaAvailable: bool, mpsAvailable: bool): (device: ConfigValue)
    ensures "device" in config && config["device"] != Text("auto") ==> device == config["device"]
    ensures ("device" !in config || config["device"] == Text("auto")) ==>
              (device == Text("cuda") || device == Text("mps") || device == Text("cpu")) &&
              (device == Text("cuda") <==> cudaAvailable) &&
              (device == Text("mps") <==> !cudaAvailable && mpsAvailable)
  {
    var requested := ConfigGet(config, "device", Text("auto"));
    if requested == Text("auto") then
      if cudaAvailable then Text("cuda")
      else if mpsAvailable then Text("mps")
      else Text("cpu")
    else
      requested
  }

  /** `kwargs.get("max_length", 500)`, given the `max_length` keyword if passed. */
  function MaxLength(maxLength: Option<int>): (limit: int)
    ensures maxLength == None ==> limit == DEFAULT_MAX_LENGTH
    ensures maxLength.Some? ==> limit == maxLength.value
  {
    match maxLength
    case Some(n) => n
    case None => DEFAULT_MAX_LENGTH
  }

  /** The two request checks of `synthesize`, in their order: the language first,
      then the length. A text exactly as long as the limit passes. */
  function Validate(text: string, language: string, maxLength: Option<int>): (failure: Option<ValueReason>)
    ensures failure == None <==> language in SUPPORTED_LANGUAGES && |text| <= MaxLength(maxLength)
    ensures language !in SUPPORTED_LANGUAGES ==> failure == Some(LanguageNotSupported(language))
    ensures language in SUPPORTED_LANGUAGES && |text| > MaxLength(maxLength) ==>
              failure == Some(TextTooLong(MaxLength(maxLength)))
  {
    if language !in SUPPORTED_LANGUAGES then Some(LanguageNotSupported(language))
    else if |text| > MaxLength(maxLength) then Some(TextTooLong(MaxLength(maxLength)))
    else None
  }

  /** The `speaker_wav` argument: absent, a string path, a `Path` object, or samples
      held in memory. */
  datatype SpeakerWav = NoSpeaker | PathString(path: string) | PathObject(path: string) | InMemory(samples: AudioBuffer)

  /** `str(Path(p))`: the empty path renders as ".". */
  function PathText(p: string): (s: string)
    ensures s != ""
    ensures p != "" ==> s == p
  {
    if p == "" then "." else p
  }

  /** `speaker_wav_path` once the reference is resolved; an in-memory reference has
      been written to the temporary file `tempName`. */
  function SpeakerWavPath(speaker: SpeakerWav, tempName: string): (path: Option<string>)
    ensures path == None <==> speaker.NoSpeaker?
    ensures speaker.PathString? ==> path == Some(speaker.path)
    ensures speaker.PathObject? ==> path == Some(PathText(speaker.path)) && path.value != ""
    ensures speaker.InMemory? ==> path == Some(tempName)
  {
    match speaker
    case NoSpeaker => None
    case PathString(p) => Some(p)
    case PathObject(p) => Some(PathText(p))
    case InMemory(_) => Some(tempName)
  }

  /** The `speaker_wav` the model is called with: the resolved path when it is a
      non-empty string (voice cloning), nothing otherwise (default speaker). An empty
      string path therefore selects the default speaker. */
  function CloningReference(speaker: SpeakerWav, tempName: string): (reference: Option<string>)
    ensures reference.Some? ==> reference.value != ""
    ensures reference.Some? <==>
              (speaker.PathString? && speaker.path != "") || speaker.PathObject? ||
              (speaker.InMemory? && tempName != "")
    ensures speaker.PathString? && speaker.path != "" ==> reference == Some(speaker.path)
    ensures speaker.PathObject? ==> reference == Some(PathText(speaker.path))
    ensures speaker.InMemory? && tempName != "" ==> reference == Some(tempName)
  {
    match SpeakerWavPath(speaker, tempName)
    case Some(p) => if p != "" then Some(p) else None
    case None => None
  }

  /** What a file holds: a WAV written by the engine or present beforehand, or a file
      whose writing raised part-way. */
  datatype FileData = Incomplete | Wav(samples: AudioBuffer, sampleRate: nat)

  /** One call of `model.tts`: the model it went to and its keyword arguments. */
  datatype TtsCall = TtsCall(model: XttsModel, text: string, language: string, speakerWav: Option<string>)

  /** The engine's mutable state together with what it can touch outside itself:
      the filesystem, the calls made to the model and the number of model loads. */
  datatype World = World(engine: Lifecycle<XttsModel>, files: map<string, FileData>, ttsCalls: seq<TtsCall>, loads: nat)

  /** The two values `__init__` fixes: `model_name` and `device`. */
  datatype Settings = Settings(modelName: ConfigValue, device: ConfigValue)

  /** The answers of the foreign calls one `synthesize` may make: the model
      construction (an instance number), the temporary file name `tempfile` picks,
      what `sf.write` raised if anything, and the outcome of `model.tts`. */
  datatype Oracle = Oracle(load: Outcome<nat>, tempName: string, write: Option<Cause>, tts: Outcome<AudioBuffer>)

  /** The result of an operation and the world after it. */
  datatype Step<T> = Step(result: T, world: World)

  /** `load_model`: a construction that returns installs the new model and sets the
      flag, whether or not a model was loaded before; one that raises changes
      nothing, so the engine can try again. */
  function Load(settings: Settings, s: Lifecycle<XttsModel>, attempt: Outcome<nat>): (r: Lifecycle<XttsModel>)
    ensures attempt.Returns? ==>
              r.isLoaded && r.model == Some(XttsModel(settings.modelName, settings.device, attempt.value))
    ensures attempt.Raises? ==> r == s
    ensures Consistent(s) ==> Consistent(r)
  {
    match attempt
    case Returns(instance) => Lifecycle(Some(XttsModel(settings.modelName, settings.device, instance)), true)
    case Raises(_) => s
  }

  /** The engine is loaded once the lazy load of `synthesize` is over. */
  predicate LoadSucceeds(w: World, oracle: Oracle) {
    w.engine.isLoaded || oracle.load.Returns?
  }

  /** The request gets past the load and both checks. */
  predicate Accepted(w: World, text: string, language: string, maxLength: Option<int>, oracle: Oracle) {
    LoadSucceeds(w, oracle) && Validate(text, language, maxLength) == None
  }

  /** The request reaches `model.tts`: accepted, and any reference audio was written. */
  predicate ReachesModel(w: World, text: string, language: string, speaker: SpeakerWav,
                         maxLength: Option<int>, oracle: Oracle) {
    Accepted(w, text, language, maxLength, oracle) && (speaker.InMemory? ==> oracle.write == None)
  }

  /** `tempfile` hands out a non-empty name no file has yet. */
  predicate TempNameFits(files: map<string, FileData>, speaker: SpeakerWav, oracle: Oracle) {
    speaker.InMemory? ==> oracle.tempName != "" && oracle.tempName !in files
  }

  /** The part of `synthesize` inside its `try`: resolve the speaker reference
      (writing in-memory samples to the temporary file), call the loaded model, and
      unlink the temporary file once the call has returned. */
  function ModelCall(w: World, text: string, language: string, speaker: SpeakerWav, oracle: Oracle)
    : (r: Step<Result<AudioBuffer>>)
    requires w.engine.model.Some?
    requires TempNameFits(w.files, speaker, oracle)
    ensures r.world.engine == w.engine && r.world.loads == w.loads
    // the writer raising stops the call before the model, and the new file stays
    ensures speaker.InMemory? && oracle.write.Some? ==>
              r.result == Err(Propagated(oracle.write.value)) && r.world.ttsCalls == w.ttsCalls &&
              r.world.files == w.files[oracle.tempName := Incomplete]
    // otherwise the model is called once, in voice-cloning or default-speaker mode
    ensures !(speaker.InMemory? && oracle.write.Some?) ==>
              r.world.ttsCalls ==
                w.ttsCalls + [TtsCall(w.engine.model.value, text, language, CloningReference(speaker, oracle.tempName))]
    // a raising model call is re-raised, and a written reference file stays
    ensures !(speaker.InMemory? && oracle.write.Some?) && oracle.tts.Raises? ==>
              r.result == Err(Propagated(oracle.tts.cause)) &&
              r.world.files == if speaker.InMemory? then w.files[oracle.tempName := Wav(speaker.samples, REFERENCE_SAMPLE_RATE)]
                               else w.files
    // a returning model call gives its audio and leaves no file behind
    ensures !(speaker.InMemory? && oracle.write.Some?) && oracle.tts.Returns? ==>
              r.result == Ok(oracle.tts.value) && r.world.files == w.files
  {
    if speaker.InMemory? && oracle.write.Some? then
      Step(Err(Propagated(oracle.write.value)), w.(files := w.files[oracle.tempName := Incomplete]))
    else
      var files := if speaker.InMemory? then w.files[oracle.tempName := Wav(speaker.samples, REFERENCE_SAMPLE_RATE)]
                   else w.files;
      var call := TtsCall(w.engine.model.value, text, language, CloningReference(speaker, oracle.tempName));
      var called := w.(files := files, ttsCalls := w.ttsCalls + [call]);
      match oracle.tts
      case Raises(cause) => Step(Err(Propagated(cause)), called)
      case Returns(audio) =>
        var cleaned := if speaker.InMemory? && oracle.tempName != "" then files - {oracle.tempName} else files;
        Step(Ok(audio), called.(files := cleaned))
  }

  /** `synthesize`, as the result it gives and the world it leaves. */
  function Synthesis(settings: Settings, w: World, text: string, language: string, speaker: SpeakerWav,
                      maxLength: Option<int>, oracle: Oracle): (r: Step<Result<AudioBuffer>>)
    requires Consistent(w.engine)
    requires TempNameFits(w.files, speaker, oracle)
    ensures Consistent(r.world.engine)
    // the lazy load comes first, and only on an unloaded engine
    ensures r.world.loads == if w.engine.isLoaded then w.loads else w.loads + 1
    ensures LoadSucceeds(w, oracle) ==>
              r.world.engine == if w.engine.isLoaded then w.engine else Load(settings, w.engine, oracle.load)
    ensures !LoadSucceeds(w, oracle) ==>
              r.result == Err(Propagated(oracle.load.cause)) && r.world == w.(loads := w.loads + 1)
    // a refused request never reaches the model and creates no file
    ensures LoadSucceeds(w, oracle) && Validate(text, language, maxLength).Some? ==>
              r.result == Err(ValueError(Validate(text, language, maxLength).value)) &&
              r.world.files == w.files && r.world.ttsCalls == w.ttsCalls
    // the model is called once exactly when the request reaches it, with the model
    // of this engine and the speaker reference in voice-cloning or default mode
    ensures |r.world.ttsCalls| == |w.ttsCalls| + (if ReachesModel(w, text, language, speaker, maxLength, oracle) then 1 else 0)
    ensures r.world.ttsCalls[..|w.ttsCalls|] == w.ttsCalls
    ensures ReachesModel(w, text, language, speaker, maxLength, oracle) ==>
              r.world.engine.model.Some? &&
              r.world.ttsCalls[|w.ttsCalls|] ==
                TtsCall(r.world.engine.model.value, text, language, CloningReference(speaker, oracle.tempName))
    // success is exactly a model call that returns, and its audio is the result
    ensures r.result.Ok? <==> ReachesModel(w, text, language, speaker, maxLength, oracle) && oracle.tts.Returns?
    ensures r.result.Ok? ==> r.result.value == oracle.tts.value
    // the writer's and the model's exceptions are re-raised unchanged
    ensures Accepted(w, text, language, maxLength, oracle) && speaker.InMemory? && oracle.write.Some? ==>
              r.result == Err(Propagated(oracle.write.value))
    ensures ReachesModel(w, text, language, speaker, maxLength, oracle) && oracle.tts.Raises? ==>
              r.result == Err(Propagated(oracle.tts.cause))
    // files that existed are never removed or changed
    ensures forall p :: p in w.files ==> p in r.world.files && r.world.files[p] == w.files[p]
    ensures !speaker.InMemory? || r.result.Ok? ==> r.world.files == w.files
    // an in-memory reference whose call fails after the file was created leaves it behind
    ensures speaker.InMemory? && Accepted(w, text, language, maxLength, oracle) && r.result.Err? ==>
              r.world.files == w.files[oracle.tempName :=
                                  if oracle.write.Some? then Incomplete else Wav(speaker.samples, REFERENCE_SAMPLE_RATE)]
  {
    var w1 := if w.engine.isLoaded then w else w.(engine := Load(settings, w.engine, oracle.load), loads := w.loads + 1);
    if !w.engine.isLoaded && oracle.load.Raises? then
      Step(Err(Propagated(oracle.load.cause)), w1)
    else
      match Validate(text, language, maxLength)
      case Some(reason) => Step(Err(ValueError(reason)), w1)
      case None => ModelCall(w1, text, language, speaker, oracle)
  }

  /** An operation a caller issues against one engine. */
  datatype Operation =
    | LoadModelCall(attempt: Outcome<nat>)
    | UnloadModelCall
    | SynthesizeCall(text: string, language: string, speaker: SpeakerWav, maxLength: Option<int>, oracle: Oracle)

  /** The foreign answers of `op` are ones the libraries can give in world `w`. */
  predicate Fits(w: World, op: Operation) {
    op.SynthesizeCall? ==> TempNameFits(w.files, op.speaker, op.oracle)
  }

  /** The engine's model, if any, was built from this engine's name and device. */
  predicate BuiltFrom(settings: Settings, m: XttsModel) {
    m.name == settings.modelName && m.device == settings.device
  }

  predicate OwnModel(settings: Settings, s: Lifecycle<XttsModel>) {
    s.model.Some? ==> BuiltFrom(settings, s.model.value)
  }

  /** One operation: `load_model`, `unload_model` or `synthesize`. */
  function Apply(settings: Settings, w: World, op: Operation): (r: World)
    requires Consistent(w.engine) && Fits(w, op)
    ensures Consistent(r.engine)
    ensures forall p :: p in w.files ==> p in r.files && r.files[p] == w.files[p]
    ensures |w.ttsCalls| <= |r.ttsCalls| <= |w.ttsCalls| + 1 && r.ttsCalls[..|w.ttsCalls|] == w.ttsCalls
    ensures OwnModel(settings, w.engine) ==>
              OwnModel(settings, r.engine) &&
              forall i | |w.ttsCalls| <= i < |r.ttsCalls| :: BuiltFrom(settings, r.ttsCalls[i].model)
  {
    match op
    case LoadModelCall(attempt) => w.(engine := Load(settings, w.engine, attempt), loads := w.loads + 1)
    case UnloadModelCall => w.(engine := Unload(w.engine))
    case SynthesizeCall(text, language, speaker, maxLength, oracle) =>
      Synthesis(settings, w, text, language, speaker, maxLength, oracle).world
  }

  /** Every operation of `ops` fits the world it is applied in. */
  ghost predicate Admissible(settings: Settings, w: World, ops: seq<Operation>)
    requires Consistent(w.engine)
    decreases |ops|
  {
    |ops| == 0 || (Fits(w, ops[0]) && Admissible(settings, Apply(settings, w, ops[0]), ops[1..]))
  }

  /** The operations of `ops` one after another. Whatever the sequence, the flag keeps
      telling whether a model is loaded, no file that existed is removed or changed,
      the record of model calls only grows, and every model call goes to a model this
      engine built from its own name and device. */
  function Run(settings: Settings, w: World, ops: seq<Operation>): (r: World)
    requires Consistent(w.engine) && Admissible(settings, w, ops)
    ensures Consistent(r.engine)
    ensures forall p :: p in w.files ==> p in r.files && r.files[p] == w.files[p]
    ensures |w.ttsCalls| <= |r.ttsCalls| && r.ttsCalls[..|w.ttsCalls|] == w.ttsCalls
    ensures OwnModel(settings, w.engine) ==>
              OwnModel(settings, r.engine) &&
              forall i | |w.ttsCalls| <= i < |r.ttsCalls| :: BuiltFrom(settings, r.ttsCalls[i].model)
    decreases |ops|
  {
    if |ops| == 0 then w
    else
      var next := Apply(settings, w, ops[0]);
      var r := Run(settings, next, ops[1..]);
      assert r.ttsCalls[..|w.ttsCalls|] == r.ttsCalls[..|next.ttsCalls|][..|w.ttsCalls|];
      r
  }

  /** After `unload_model` the engine reports itself unloaded, and the next
      `synthesize` loads the model again before anything else. */
  lemma ReloadAfterUnload(settings: Settings, w: World, text: string, language: string, speaker: SpeakerWav,
                          maxLength: Option<int>, oracle: Oracle)
    requires Consistent(w.engine) && TempNameFits(w.files, speaker, oracle)
    ensures !Unload(w.engine).isLoaded
    ensures var r := Synthesis(settings, w.(engine := Unload(w.engine)), text, language, speaker, maxLength, oracle);
            r.world.loads == w.loads + 1 &&
            (oracle.load.Returns? ==>
               r.world.engine == Lifecycle(Some(XttsModel(settings.modelName, settings.device, oracle.load.value)), true))
  {
  }

  /** Two explicit `load_model` calls construct two models: loading is not a no-op
      on a loaded engine. */
  lemma LoadTwiceConstructsTwice(settings: Settings, w: World, first: nat, second: nat)
    requires Consistent(w.engine)
    ensures var r := Run(settings, w, [LoadModelCall(Returns(first)), LoadModelCall(Returns(second))]);
            r.loads == w.loads + 2 &&
            r.engine.model == Some(XttsModel(settings.modelName, settings.device, second))
  {
    var ops := [LoadModelCall(Returns(first)), LoadModelCall(Returns(second))];
    var once := Apply(settings, w, ops[0]);
    var twice := Apply(settings, once, ops[1]);
    assert ops[1..][1..] == [];
    assert Run(settings, once, ops[1..]) == Run(settings, twice, []) == twice;
  }

  /** The filesystem the engine writes temporary files to. */
  class FileSystem {
    var files: map<string, FileData>

    constructor (files: map<string, FileData>)
      ensures this.files == files
    {
      this.files := files;
    }

    /** `tempfile.NamedTemporaryFile(suffix=".wav", delete=False)`: an empty file
        under a name no file had, kept when it is closed. */
    method CreateTemp(name: string)
      requires name !in files
      modifies this
      ensures files == old(files)[name := Incomplete]
    {
      files := files[name := Incomplete];
    }

    /** `sf.write(name, samples, sampleRate)`; `failure` is what the writer raised. */
    method WriteWav(name: string, samples: AudioBuffer, sampleRate: nat, failure: Option<Cause>)
      returns (error: Option<Cause>)
      modifies this
      ensures error == failure
      ensures files == if failure == None then old(files)[name := Wav(samples, sampleRate)] else old(files)
    {
      error := failure;
      if failure == None {
        files := files[name := Wav(samples, sampleRate)];
      }
    }

    /** `Path(name).unlink(missing_ok=True)`. */
    method Unlink(name: string)
      modifies this
      ensures files == old(files) - {name}
    {
      files := files - {name};
    }
  }

  /** `CoquiXTTSEngine`. The inherited state lives in `base`; `ttsCalls` and `loads`
      record the engine's calls into the model library. */
  class CoquiXTTSEngine {
    const base: TTSEngineBase<XttsModel>
    const modelName: ConfigValue
    const device: ConfigValue
    ghost var ttsCalls: seq<TtsCall>
    ghost var loads: nat

    ghost predicate Valid()
      reads this, base
    {
      base.Valid() && base.className == ENGINE_CLASS_NAME
    }

    function EngineSettings(): Settings {
      Settings(modelName, device)
    }

    ghost function WorldWith(fs: FileSystem): World
      reads this, base, fs
    {
      World(base.State(), fs.files, ttsCalls, loads)
    }

    /** `__init__`: the base state over `config`, then the model name and the device
        chosen with the given accelerator availability. */
    constructor (config: Config, cudaAvailable: bool, mpsAvailable: bool)
      ensures fresh(base) && base.className == ENGINE_CLASS_NAME && base.config == config
      ensures base.State() == Initial() && Valid()
      ensures modelName == ModelName(config) && device == SelectDevice(config, cudaAvailable, mpsAvailable)
      ensures ttsCalls == [] && loads == 0
    {
      base := new TTSEngineBase(ENGINE_CLASS_NAME, config);
      modelName := ModelName(config);
      device := SelectDevice(config, cudaAvailable, mpsAvailable);
      ttsCalls := [];
      loads := 0;
    }

    /** `load_model`, with `attempt` the outcome of `TTS(model_name).to(device)`;
        returns what it re-raised, if anything. */
    method LoadModel(attempt: Outcome<nat>) returns (error: Option<Cause>)
      requires Valid()
      modifies this, base
      ensures Valid()
      ensures base.State() == Load(EngineSettings(), old(base.State()), attempt)
      ensures error == if attempt.Raises? then Some(attempt.cause) else None
      ensures loads == old(loads) + 1 && ttsCalls == old(ttsCalls)
    {
      loads := loads + 1;
      match attempt
      case Returns(instance) =>
        base.model := Some(XttsModel(modelName, device, instance));
        base.isLoaded := true;
        error := None;
      case Raises(cause) =>
        error := Some(cause);
    }

    /** `synthesize`, with the defaults of its signature: English, no speaker
        reference, and no `max_length` keyword. The foreign answers and the
        filesystem come first. */
    method Synthesize(oracle: Oracle, fs: FileSystem, text: string, language: string := "en",
                      speaker: SpeakerWav := NoSpeaker, maxLength: Option<int> := None)
      returns (result: Result<AudioBuffer>)
      requires Valid()
      requires TempNameFits(fs.files, speaker, oracle)
      modifies this, base, fs
      ensures Valid()
      ensures Step(result, WorldWith(fs)) ==
                Synthesis(EngineSettings(), old(WorldWith(fs)), text, language, speaker, maxLength, oracle)
    {
      if !base.isLoaded {
        var error := LoadModel(oracle.load);
        if error.Some? {
          return Err(Propagated(error.value));
        }
      }
      if language !in SUPPORTED_LANGUAGES {
        return Err(ValueError(LanguageNotSupported(language)));
      }
      var limit := MaxLength(maxLength);
      if |text| > limit {
        return Err(ValueError(TextTooLong(limit)));
      }

      result := CallModel(text, language, speaker, oracle, fs);
    }

    /** The `try` block of `synthesize`, on a loaded engine. */
    method CallModel(text: string, language: string, speaker: SpeakerWav, oracle: Oracle, fs: FileSystem)
      returns (result: Result<AudioBuffer>)
      requires Valid() && base.isLoaded
      requires TempNameFits(fs.files, speaker, oracle)
      modifies this, fs
      ensures Step(result, WorldWith(fs)) == ModelCall(old(WorldWith(fs)), text, language, speaker, oracle)
    {
      var speakerWavPath: Option<string> := None;
      match speaker {
        case NoSpeaker =>
        case PathString(p) =>
          speakerWavPath := Some(p);
        case PathObject(p) =>
          speakerWavPath := Some(PathText(p));
        case InMemory(samples) =>
          fs.CreateTemp(oracle.tempName);
          var error := fs.WriteWav(oracle.tempName, samples, REFERENCE_SAMPLE_RATE, oracle.write);
          if error.Some? {
            return Err(Propagated(error.value));
          }
          speakerWavPath := Some(oracle.tempName);
      }

      var model := base.model.value;
      var call;
      if speakerWavPath.Some? && speakerWavPath.value != "" {
        call := TtsCall(model, text, language, speakerWavPath);   // voice cloning
      } else {
        call := TtsCall(model, text, language, None);             // default speaker
      }
      ttsCalls := ttsCalls + [call];

      match oracle.tts {
        case Raises(cause) =>
          result := Err(Propagated(cause));
        case Returns(audio) =>
          if speakerWavPath.Some? && speakerWavPath.value != "" && speaker.InMemory? {
            fs.Unlink(speakerWavPath.value);
          }
          result := Ok(audio);
      }
    }

    /** `get_supported_languages`: a new list holding the supported codes; writing to
        it cannot reach `SUPPORTED_LANGUAGES`. */
    method GetSupportedLanguages() returns (languages: array<string>)
      ensures fresh(languages)
      ensures languages[..] == SUPPORTED_LANGUAGES
    {
      languages := new string[|SUPPORTED_LANGUAGES|](i requires 0 <= i < |SUPPORTED_LANGUAGES| => SUPPORTED_LANGUAGES[i]);
    }
  }

  /** A caller's view of the lifecycle: `unload_model` followed by `health_check`
      reports this engine, not loaded, with its configuration. */
  method UnloadThenHealthCheck(engine: CoquiXTTSEngine) returns (report: HealthReport)
    requires engine.Valid()
    modifies engine.base
    ensures engine.Valid() && engine.base.model == None
    ensures report == HealthReport(ENGINE_CLASS_NAME, false, engine.base.config)
  {
    engine.base.UnloadModel();
    report := engine.base.HealthCheck();
  }

  /** A call with every default, `synthesize(text)`: English, the default speaker,
      the 500-character limit. */
  method SynthesizeWithDefaults(engine: CoquiXTTSEngine, oracle: Oracle, fs: FileSystem, text: string)
    returns (result: Result<AudioBuffer>)
    requires engine.Valid()
    modifies engine, engine.base, fs
    ensures engine.Valid()
    ensures Step(result, engine.WorldWith(fs)) ==
              Synthesis(engine.EngineSettings(), old(engine.WorldWith(fs)), text, "en", NoSpeaker, None, oracle)
  {
    result := engine.Synthesize(oracle, fs, text);
  }
}
