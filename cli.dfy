/**
 * The `convert_weight` command: argument parsing with its type callbacks and
 * choices checks, source and output path resolution, and the fixed order of
 * detector calls that ends in exactly one call of the conversion engine.
 */
module Cli {
  import opened Wrappers
  import opened Errors
  import opened Paths
  import opened Lora

  /** The `--source-format` values. */
  datatype SourceFormat = Auto | HuggingfaceTorch | HuggingfaceSafetensor | Awq

  /** A format weight detection has settled on. */
  type ConcreteFormat = f: SourceFormat | f != Auto witness HuggingfaceTorch

  const FormatChoices: set<string> := {"auto", "huggingface-torch", "huggingface-safetensor", "awq"}

  function FormatName(f: SourceFormat): string
  {
    match f
    case Auto => "auto"
    case HuggingfaceTorch => "huggingface-torch"
    case HuggingfaceSafetensor => "huggingface-safetensor"
    case Awq => "awq"
  }

  /** The `--source-format` choices check. */
  function FormatNamed(name: string): (f: Option<SourceFormat>)
    ensures f.Some? <==> name in FormatChoices
    ensures f.Some? ==> FormatName(f.value) == name
  {
    if name == "auto" then Some(Auto)
    else if name == "huggingface-torch" then Some(HuggingfaceTorch)
    else if name == "huggingface-safetensor" then Some(HuggingfaceSafetensor)
    else if name == "awq" then Some(Awq)
    else None
  }

  /** Objects produced by the external detectors and registries, known here only by name. */
  datatype Device = Device(name: string)
  datatype Model = Model(name: string)
  datatype Scheme = Scheme(name: string)

  /** What weight detection returns: the concrete weight path and its format. */
  datatype Weight = Weight(path: Path, format: ConcreteFormat)

  /** The registries and detectors the command calls but does not define. */
  datatype Env = Env(
    quantizations: map<string, Scheme>,                         // QUANTIZATION
    models: set<string>,                                         // the keys of MODELS
    detectConfig: string -> Result<Path, Error>,                 // detect_config
    detectDevice: string -> Result<Device, Error>,               // detect_device
    detectWeight: (Path, Path, SourceFormat) -> Result<Weight, Error>,  // detect_weight
    detectModelType: (string, Path) -> Result<Model, Error>)     // detect_model_type

  /**
   * The command line, option by option; an option the user left out holds
   * its declared default ("auto", false) or None when it has none.
   */
  datatype RawArgs = RawArgs(
    config: Option<string>,
    quantization: Option<string>,
    modelType: string,
    device: string,
    source: string,
    sourceFormat: string,
    output: Option<string>,
    loraPaths: Option<seq<string>>,
    loraOnly: bool)

  /** The arguments handed to `convert_weight`. */
  datatype ConvertCall = ConvertCall(
    config: Path,
    quantization: Scheme,
    model: Model,
    device: Device,
    source: Path,
    sourceFormat: ConcreteFormat,
    loraPaths: Option<map<string, Path>>,
    loraOnly: bool,
    output: Path)

  /** `parse_path`, and `_parse_source` for an explicit path: the path, if it exists. */
  function ExistingPath(path: Path, entries: set<Path>): (r: Result<Path, Error>)
    ensures r.Success? <==> path in entries
    ensures r.Success? ==> r.value == path
    ensures r.Failure? ==> r.error == SourceNotFound(path)
  {
    if path in entries then Success(path) else Failure(SourceNotFound(path))
  }

  /**
   * `_parse_source`: "auto" stands for the directory of the config file and
   * is not checked for existence; any other path must exist.
   */
  function ResolveSource(path: string, config: Path, entries: set<Path>): (r: Result<Path, Error>)
    ensures r.Success? ==> r.value == if path == "auto" then Parent(config) else path
    ensures r.Failure? <==> path != "auto" && path !in entries
    ensures r.Failure? ==> r.error == SourceNotFound(path)
  {
    if path == "auto" then Success(Parent(config)) else ExistingPath(path, entries)
  }

  /**
   * A resolved source exists: an explicit one was checked, and the parent
   * of an existing config file is a directory.
   */
  lemma ResolvedSourceExists(path: string, config: Path, s: FsState)
    requires WellFormed(s) && config in s.entries
    requires ResolveSource(path, config, s.entries).Success?
    ensures ResolveSource(path, config, s.entries).value in s.entries
    ensures path == "auto" ==> ResolveSource(path, config, s.entries).value in s.dirs
  {
    assert Parent(config) in s.dirs;
  }

  /** With `--source auto` and the config at "/m/config.json", the source is "/m", checked or not. */
  lemma AutoSourceBesideConfig(entries: set<Path>)
    ensures ResolveSource("auto", "/m/config.json", entries) == Success("/m")
  {
    var config: Path := "/m/config.json";
    assert config[2] == '/' && config[3..] == "config.json";
    LastIndexAt(config, '/', 2);
    assert config[..2] == "/m";
  }

  /** The filesystem after `_parse_output`: untouched for a directory, otherwise after mkdir. */
  function OutputCreated(s: FsState, p: Path): Result<FsState, Error>
  {
    if p in s.dirs then Success(s) else AfterMkdir(s, p)
  }

  /**
   * After `_parse_output(p)` succeeds, `p` and its ancestors are directories
   * and nothing outside them was added; an existing directory is left as it
   * is, so a second call changes nothing.
   */
  lemma OutputCreatedSpec(s: FsState, p: Path)
    requires WellFormed(s)
    ensures p in s.dirs ==> OutputCreated(s, p) == Success(s)
    ensures OutputCreated(s, p).Failure? <==> exists x :: x in Lineage(p) && x in s.entries && x !in s.dirs
    ensures OutputCreated(s, p).Success? ==>
      var t := OutputCreated(s, p).value;
      && WellFormed(t)
      && Lineage(p) <= t.dirs
      && s.dirs <= t.dirs && s.entries <= t.entries
      && t.entries - s.entries <= Lineage(p)
      && OutputCreated(t, p) == Success(t)
  {
    if p in s.dirs {
      MkdirOnDirectory(s, p);
    } else if AfterMkdir(s, p).Success? {
      MkdirMakesDirectory(s, p);
    } else {
      var l := Lineage(p);
      assert !(l * s.entries <= s.dirs);
      var x :| x in l * s.entries && x !in s.dirs;
    }
  }

  /** `_parse_output`: make `p` a directory, creating missing parents. */
  method ParseOutput(fs: FileSystem, p: Path) returns (r: Result<Path, Error>)
    requires fs.Valid()
    modifies fs
    ensures fs.Valid()
    ensures r.Success? <==> OutputCreated(old(fs.State()), p).Success?
    ensures r.Success? ==> r.value == p && fs.State() == OutputCreated(old(fs.State()), p).value
    ensures r.Failure? ==> fs.State() == old(fs.State()) && r.error == PathCreationError(p)
  {
    if !fs.IsDir(p) {
      var made := fs.Mkdir(p);
      if made.Fail? {
        return Failure(made.error);
      }
    }
    return Success(p);
  }

  /** The `argparse` namespace the parsed options are stored in. */
  class Namespace {
    const config: Path
    const quantization: string
    const modelType: string
    const device: Device
    var source: Path
    var sourceFormat: SourceFormat
    const output: Path
    var loraPaths: Option<map<string, Path>>
    const loraOnly: bool

    constructor (config: Path, quantization: string, modelType: string, device: Device,
                 source: Path, sourceFormat: SourceFormat, output: Path, loraOnly: bool)
      ensures this.config == config && this.quantization == quantization
      ensures this.modelType == modelType && this.device == device
      ensures this.source == source && this.sourceFormat == sourceFormat
      ensures this.output == output && this.loraOnly == loraOnly
      ensures loraPaths == None
    {
      this.config, this.quantization, this.modelType, this.device := config, quantization, modelType, device;
      this.source, this.sourceFormat, this.output, this.loraOnly := source, sourceFormat, output, loraOnly;
      loraPaths := None;
    }

    /**
     * `LoRAPathAction.__call__`: reset the dictionary, then insert each
     * token's adapter in order, checking that its path exists. On a missing
     * path the dictionary holds the tokens before it and the error is raised.
     */
    method ApplyLoraPaths(values: seq<string>, fs: FileSystem) returns (r: Outcome<Error>)
      modifies this`loraPaths
      ensures r.Pass? <==> ParseAdapters(values, fs.entries).Success?
      ensures r.Pass? ==> loraPaths == Some(AdapterMap(values))
      ensures r.Fail? ==> ParseAdapters(values, fs.entries) == Failure(r.error)
      ensures r.Fail? ==> loraPaths == Some(AdapterMap(values[..MissingAt(values, fs.entries).value]))
    {
      loraPaths := Some(map[]);
      var i := 0;
      while i < |values|
        invariant 0 <= i <= |values|
        invariant loraPaths == Some(AdapterMap(values[..i]))
        invariant forall j :: 0 <= j < i ==> AdapterOf(values[j]).path in fs.entries
      {
        var token := values[i];
        var name, path;
        if '=' in token {
          var a := SplitAtFirst(token);
          name, path := a.name, a.path;
        } else {
          name, path := token, token;
        }
        var checked := ExistingPath(path, fs.entries);
        if checked.Failure? {
          MissingAtFirst(values, fs.entries, i);
          return Fail(checked.error);
        }
        AdapterMapAppend(values[..i], token);
        assert values[..i + 1] == values[..i] + [token];
        loraPaths := Some(loraPaths.value[name := checked.value]);
        i := i + 1;
      }
      assert values[..i] == values;
      r := Pass;
    }
  }

  /** The option values `parse_args` stores before the output and LoRA callbacks run. */
  datatype Options = Options(
    config: Path,
    quantization: string,
    modelType: string,
    device: Device,
    source: string,
    sourceFormat: SourceFormat,
    output: Path,
    loraOnly: bool)

  /**
   * The parts of `parse_args` that leave the filesystem alone: the required
   * options, config and device detection, and the three choices checks.
   */
  function CheckOptions(raw: RawArgs, env: Env): (r: Result<Options, Error>)
    ensures r.Success? <==>
      && raw.config.Some? && env.detectConfig(raw.config.value).Success?
      && raw.quantization.Some? && raw.quantization.value in env.quantizations
      && (raw.modelType == "auto" || raw.modelType in env.models)
      && env.detectDevice(raw.device).Success?
      && raw.sourceFormat in FormatChoices
      && raw.output.Some?
    ensures r.Success? ==>
      && r.value.config == env.detectConfig(raw.config.value).value
      && r.value.quantization == raw.quantization.value
      && r.value.modelType == raw.modelType
      && r.value.device == env.detectDevice(raw.device).value
      && r.value.source == raw.source
      && FormatName(r.value.sourceFormat) == raw.sourceFormat
      && r.value.output == raw.output.value
      && r.value.loraOnly == raw.loraOnly
  {
    if raw.config.None? then Failure(MissingArgument("config"))
    else
      var config := env.detectConfig(raw.config.value);
      if config.Failure? then Failure(config.error)
      else if raw.quantization.None? then Failure(MissingArgument("--quantization"))
      else if raw.quantization.value !in env.quantizations then
        Failure(InvalidChoice("--quantization", raw.quantization.value, env.quantizations.Keys))
      else if raw.modelType != "auto" && raw.modelType !in env.models then
        Failure(InvalidChoice("--model-type", raw.modelType, {"auto"} + env.models))
      else
        var device := env.detectDevice(raw.device);
        if device.Failure? then Failure(device.error)
        else if FormatNamed(raw.sourceFormat).None? then
          Failure(InvalidChoice("--source-format", raw.sourceFormat, FormatChoices))
        else if raw.output.None? then Failure(MissingArgument("--output"))
        else
          Success(Options(config.value, raw.quantization.value, raw.modelType, device.value,
                          raw.source, FormatNamed(raw.sourceFormat).value, raw.output.value, raw.loraOnly))
  }

  /** Every check `parse_args` makes passes, with the output created before the LoRA paths are checked. */
  ghost predicate ArgsAccepted(raw: RawArgs, env: Env, s: FsState)
  {
    && CheckOptions(raw, env).Success?
    && OutputCreated(s, raw.output.value).Success?
    && (raw.loraPaths.Some? ==>
          ParseAdapters(raw.loraPaths.value, OutputCreated(s, raw.output.value).value.entries).Success?)
  }

  /** The `--lora-paths` field: absent when the option is absent, the adapter dictionary otherwise. */
  function LoraField(raw: RawArgs): (f: Option<map<string, Path>>)
    ensures f.None? <==> raw.loraPaths.None?
    ensures raw.loraPaths == Some([]) ==> f == Some(map[])
  {
    match raw.loraPaths
    case None => None
    case Some(tokens) => Some(AdapterMap(tokens))
  }

  /**
   * `parser.parse_args(argv)` with the declared options: config and device
   * detection, the choices checks, output creation and the LoRA action.
   * When several options are invalid, which one argparse reports and whether
   * the output directory was created first depends on the order of argv;
   * the contract states only what holds for every order.
   */
  method ParseArgs(raw: RawArgs, env: Env, fs: FileSystem) returns (r: Result<Namespace, Error>)
    requires fs.Valid()
    modifies fs
    ensures fs.Valid()
    ensures r.Success? <==> ArgsAccepted(raw, env, old(fs.State()))
    ensures r.Success? ==>
      var ns, opts := r.value, CheckOptions(raw, env).value;
      && fresh(ns)
      && ns.config == opts.config
      && ns.quantization == opts.quantization
      && ns.modelType == opts.modelType
      && ns.device == opts.device
      && ns.source == opts.source
      && ns.sourceFormat == opts.sourceFormat
      && ns.output == opts.output
      && ns.loraOnly == opts.loraOnly
      && ns.loraPaths == LoraField(raw)
      && fs.State() == OutputCreated(old(fs.State()), opts.output).value
      && ns.output in fs.dirs
      && (ns.loraPaths.Some? ==> forall name :: name in ns.loraPaths.value ==> ns.loraPaths.value[name] in fs.entries)
    ensures r.Failure? ==>
      || fs.State() == old(fs.State())
      || (raw.output.Some? && OutputCreated(old(fs.State()), raw.output.value) == Success(fs.State()))
  {
    ghost var s := fs.State();
    var opts := CheckOptions(raw, env);
    if opts.Failure? {
      return Failure(opts.error);
    }
    var o := opts.value;
    var output := ParseOutput(fs, o.output);
    if output.Failure? {
      return Failure(output.error);
    }
    OutputCreatedSpec(s, o.output);
    var ns := new Namespace(o.config, o.quantization, o.modelType, o.device,
                            o.source, o.sourceFormat, output.value, o.loraOnly);
    if raw.loraPaths.Some? {
      var applied := ns.ApplyLoraPaths(raw.loraPaths.value, fs);
      if applied.Fail? {
        return Failure(applied.error);
      }
      ParseAdaptersSpec(raw.loraPaths.value, fs.entries);
    }
    return Success(ns);
  }

  /** The steps of one run, in the order `main` takes them. */
  datatype Step = Parsing | SourceResolution | WeightDetection | ModelTypeDetection | Conversion

  const Pipeline: seq<Step> := [Parsing, SourceResolution, WeightDetection, ModelTypeDetection, Conversion]

  /** One run: the steps that were started, and the call made to the conversion engine or the error. */
  datatype Run = Run(steps: seq<Step>, outcome: Result<ConvertCall, Error>)

  /**
   * Steps start in pipeline order, a failed step is the last one started,
   * and conversion is reached exactly when nothing failed.
   */
  predicate FailFast(run: Run)
  {
    && 0 < |run.steps| <= |Pipeline|
    && run.steps == Pipeline[..|run.steps|]
    && (run.outcome.Success? <==> run.steps == Pipeline)
  }

  /** Under fail-fast ordering the conversion engine is called once on success and never on failure. */
  lemma ConversionAtMostOnce(run: Run)
    requires FailFast(run)
    ensures multiset(run.steps)[Conversion] == if run.outcome.Success? then 1 else 0
    ensures Conversion in run.steps ==> run.steps[|run.steps| - 1] == Conversion
  {
    var n := |run.steps|;
    assert forall k :: 0 <= k < 4 ==> Pipeline[k] != Conversion;
    if n < 5 {
      assert forall k :: 0 <= k < n ==> run.steps[k] == Pipeline[k];
      assert Conversion !in run.steps;
    }
  }

  /**
   * The steps of `main` after parsing, on the parsed namespace: resolve the
   * source, detect the weights (storing the concrete source and format back
   * into the namespace), detect the model type, and build the one call of
   * `convert_weight`.
   */
  method ResolveAndConvert(ns: Namespace, env: Env, entries: set<Path>) returns (run: Run)
    requires ns.quantization in env.quantizations
    modifies ns`source, ns`sourceFormat
    ensures FailFast(run) && |run.steps| > 1
    ensures |run.steps| <= 3 ==> ns.source == old(ns.source) && ns.sourceFormat == old(ns.sourceFormat)
    ensures var source := ResolveSource(old(ns.source), ns.config, entries);
      && (|run.steps| > 2 <==> source.Success?)
      && (|run.steps| == 2 ==> run.outcome == Failure(source.error))
      && (|run.steps| > 2 ==>
            var weight := env.detectWeight(source.value, ns.config, old(ns.sourceFormat));
            && (|run.steps| > 3 <==> weight.Success?)
            && (|run.steps| == 3 ==> run.outcome == Failure(weight.error))
            && (|run.steps| > 3 ==>
                  ns.source == weight.value.path && ns.sourceFormat == weight.value.format)
            && (|run.steps| > 3 ==>
                  var model := env.detectModelType(ns.modelType, ns.config);
                  && (|run.steps| > 4 <==> model.Success?)
                  && (|run.steps| == 4 ==> run.outcome == Failure(model.error))
                  && (|run.steps| > 4 ==>
                        run.outcome == Success(ConvertCall(
                          ns.config, env.quantizations[ns.quantization], model.value, ns.device,
                          weight.value.path, weight.value.format, ns.loraPaths, ns.loraOnly, ns.output)))))
  {
    var source := ResolveSource(ns.source, ns.config, entries);
    if source.Failure? {
      return Run(Pipeline[..2], Failure(source.error));
    }

    var weight := env.detectWeight(source.value, ns.config, ns.sourceFormat);
    if weight.Failure? {
      return Run(Pipeline[..3], Failure(weight.error));
    }
    ns.source, ns.sourceFormat := weight.value.path, weight.value.format;

    var model := env.detectModelType(ns.modelType, ns.config);
    if model.Failure? {
      return Run(Pipeline[..4], Failure(model.error));
    }

    var call := ConvertCall(ns.config, env.quantizations[ns.quantization], model.value, ns.device,
                            ns.source, ns.sourceFormat, ns.loraPaths, ns.loraOnly, ns.output);
    run := Run(Pipeline, Success(call));
  }

  /**
   * `main`: parse the arguments, resolve the source, detect the weights and
   * then the model type, and hand the results to `convert_weight` once.
   * Any failure ends the run before the next step.
   */
  method RunCommand(raw: RawArgs, env: Env, fs: FileSystem) returns (run: Run)
    requires fs.Valid()
    modifies fs
    ensures fs.Valid()
    ensures FailFast(run)
    ensures |run.steps| > 1 <==> ArgsAccepted(raw, env, old(fs.State()))
    ensures |run.steps| == 1 ==>
      || fs.State() == old(fs.State())
      || (raw.output.Some? && OutputCreated(old(fs.State()), raw.output.value) == Success(fs.State()))
    ensures |run.steps| > 1 ==>
      var opts := CheckOptions(raw, env).value;
      var config := opts.config;
      var source := ResolveSource(raw.source, config, fs.entries);
      && fs.State() == OutputCreated(old(fs.State()), raw.output.value).value
      && (|run.steps| > 2 <==> source.Success?)
      && (|run.steps| == 2 ==> run.outcome == Failure(source.error))
      && (|run.steps| > 2 ==>
            var weight := env.detectWeight(source.value, config, opts.sourceFormat);
            && (|run.steps| > 3 <==> weight.Success?)
            && (|run.steps| == 3 ==> run.outcome == Failure(weight.error))
            && (|run.steps| > 3 ==>
                  var model := env.detectModelType(raw.modelType, config);
                  && (|run.steps| > 4 <==> model.Success?)
                  && (|run.steps| == 4 ==> run.outcome == Failure(model.error))
                  && (|run.steps| > 4 ==>
                        && raw.quantization.value in env.quantizations
                        && run.outcome == Success(ConvertCall(
                             config,
                             env.quantizations[raw.quantization.value],
                             model.value,
                             opts.device,
                             weight.value.path,
                             weight.value.format,
                             LoraField(raw),
                             raw.loraOnly,
                             raw.output.value)))))
  {
    var parsed := ParseArgs(raw, env, fs);
    if parsed.Failure? {
      return Run(Pipeline[..1], Failure(parsed.error));
    }
    run := ResolveAndConvert(parsed.value, env, fs.entries);
  }
}
