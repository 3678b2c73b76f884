/** The state every text-to-speech engine shares (backend/src/tts/engine_base.py):
    a configuration map the engine never reassigns or mutates, an optional handle
    on the loaded model and an `is_loaded` flag, with the two operations the base
    class implements itself, `unload_model` and `health_check`. The model type is a
    parameter: each concrete engine decides what its handle is. */
module EngineBase {

  datatype Option<+T> = None | Some(value: T)

  /** A configuration value as the engine sees it: a string, a number or a list of
      strings, the field types of the engine settings (name, model path and device,
      sample rate, languages). */
  datatype ConfigValue = Text(text: string) | Number(number: int) | TextList(items: seq<string>)

  type Config = map<string, ConfigValue>

  /** The two mutable fields of an engine, `model` and `is_loaded`, as a value. */
  datatype Lifecycle<M> = Lifecycle(model: Option<M>, isLoaded: bool)

  /** The flag tells the truth about the handle: `is_loaded` exactly when `model` is not None. */
  predicate Consistent<M>(s: Lifecycle<M>) {
    s.isLoaded <==> s.model.Some?
  }

  /** The state `__init__` leaves behind: no model, not loaded. */
  function Initial<M>(): (s: Lifecycle<M>)
    ensures Consistent(s) && !s.isLoaded && s.model == None
  {
    Lifecycle(None, false)
  }

  /** `unload_model`: drops the handle and clears the flag, but only when there is a
      handle; with no handle it changes nothing. */
  function Unload<M>(s: Lifecycle<M>): (r: Lifecycle<M>)
    ensures r.model == None
    ensures s.model.Some? ==> !r.isLoaded
    ensures s.model == None ==> r == s
    ensures Consistent(s) ==> Consistent(r) && !r.isLoaded
  {
    if s.model.Some? then Lifecycle(None, false) else s
  }

  /** What `health_check` reports. */
  datatype HealthReport = HealthReport(engine: string, loaded: bool, config: Config)

  /** The shared engine state. `className` stands for `self.__class__.__name__`, the
      name of the concrete engine class the object was built as. */
  class TTSEngineBase<M> {
    const className: string
    const config: Config
    var model: Option<M>
    var isLoaded: bool

    function State(): Lifecycle<M>
      reads this
    {
      Lifecycle(model, isLoaded)
    }

    ghost predicate Valid()
      reads this
    {
      Consistent(State())
    }

    /** `__init__`: keeps the configuration it was given, with no model loaded. */
    constructor (className: string, config: Config)
      ensures this.className == className && this.config == config
      ensures State() == Initial() && Valid()
    {
      this.className := className;
      this.config := config;
      model := None;
      isLoaded := false;
    }

    /** `unload_model`. */
    method UnloadModel()
      modifies this
      ensures State() == Unload(old(State()))
      ensures old(Valid()) ==> Valid() && !isLoaded
    {
      if model.Some? {
        model := None;
        isLoaded := false;
      }
    }

    /** `health_check`: a snapshot of the class name, the flag and the configuration;
        it changes nothing. */
    method HealthCheck() returns (report: HealthReport)
      ensures report.engine == className
      ensures report.loaded == isLoaded
      ensures report.config == config
    {
      report := HealthReport(className, isLoaded, config);
    }
  }
}
