/** The set-up part of the quantification experiment's `main`: choosing the
    topology file for an architecture and naming the four output files. */
module ExperimentPaths {
  import opened Wrappers
  import opened Text
  import opened FileNames
  import Names

  /** The command-line options the set-up reads. */
  datatype Options = Options(
    jsonPath: string,
    architecture: string,
    rmw: string,
    load: string,
    experimentPath: string,
    useIpc: Names.Int32,
    duration: Names.Int32)

  /** `main` returns -1 for an architecture it has no topology file for. */
  datatype SetupError = ArchitectureNotRecognized(architecture: string)

  /** `s.rfind(c)`: the last position holding `c`, or none. */
  function LastIndexOf(s: string, c: char): (r: Option<nat>)
    ensures r.None? <==> c !in s
    ensures r.Some? ==> r.value < |s| && s[r.value] == c && c !in s[r.value + 1..]
  {
    if |s| == 0 then None
    else if s[|s| - 1] == c then Some(|s| - 1)
    else
      var r := LastIndexOf(s[..|s| - 1], c);
      assert s == s[..|s| - 1] + [s[|s| - 1]];
      r
  }

  /** `path.substr(0, path.rfind("/"))`: the text before the last `/`, or the
      whole path when it has none (`npos` takes everything). */
  function DirName(path: string): (r: string)
    ensures '/' !in path ==> r == path
    ensures '/' in path ==> |r| < |path| && path[..|r|] == r && path[|r|] == '/' && '/' !in path[|r| + 1..]
  {
    match LastIndexOf(path, '/')
    case None => path
    case Some(i) => path[..i]
  }

  /** The topology file bundled for each known architecture. */
  function ArchJsonFile(arch: string): (r: Option<string>)
    ensures r.Some? <==> arch in {"simple", "medium", "complex", "complex_rt"}
  {
    if arch == "simple" then Some("vff.json")
    else if arch == "medium" then Some("nav.json")
    else if arch == "complex" then Some("social.json")
    else if arch == "complex_rt" then Some("social_rt.json")
    else None
  }

  /** The topology file to load: the given one, or the architecture's bundled
      file in `test_archs` next to the directory of `sourceFile` (`__FILE__`). */
  function ResolveJsonPath(opts: Options, sourceFile: string): (r: Result<string, SetupError>)
    ensures opts.jsonPath != "" ==> r == Ok(opts.jsonPath)
    ensures opts.jsonPath == "" && ArchJsonFile(opts.architecture).None? ==>
              r == Err(ArchitectureNotRecognized(opts.architecture))
    ensures opts.jsonPath == "" && ArchJsonFile(opts.architecture).Some? ==>
              r == Ok(DirName(sourceFile) + "/../test_archs/" + ArchJsonFile(opts.architecture).value)
  {
    if opts.jsonPath != "" then Ok(opts.jsonPath)
    else
      match ArchJsonFile(opts.architecture)
      case Some(file) => Ok(DirName(sourceFile) + "/../test_archs/" + file)
      case None => Err(ArchitectureNotRecognized(opts.architecture))
  }

  datatype OutputKind = Resources | Events | LatencyAll | LatencyTotal

  function KindPrefix(kind: OutputKind): string
  {
    match kind
    case Resources => "resources"
    case Events => "events"
    case LatencyAll => "latency_all"
    case LatencyTotal => "latency_total"
  }

  /** `_ipc-<use_ipc>_<duration>s_<load>`. */
  function Tail(opts: Options): string
  {
    "_ipc-" + IntToString(opts.useIpc) + "_" + IntToString(opts.duration) + "s_" + opts.load
  }

  /** `<experiment_path>/<architecture>/<rmw>/`, the directory made for the outputs. */
  function Head(opts: Options): string
  {
    opts.experimentPath + "/" + opts.architecture + "/" + opts.rmw + "/"
  }

  function OutputPath(opts: Options, kind: OutputKind): string
  {
    Head(opts) + KindPrefix(kind) + Tail(opts) + ".txt"
  }

  /** What the set-up yields before the run starts. */
  datatype Setup = Setup(
    jsonPath: string,
    outputDir: string,
    resourcesPath: string,
    eventsPath: string,
    latencyAllPath: string,
    latencyTotalPath: string)

  /** The set-up of `main`: an unrecognised architecture without a topology
      file stops it before any directory or output path exists; otherwise the
      output directory and the four paths in it. */
  function ExperimentSetup(opts: Options, sourceFile: string): (r: Result<Setup, SetupError>)
    ensures r.Err? <==> opts.jsonPath == "" && ArchJsonFile(opts.architecture).None?
    ensures r.Ok? ==> r.value.jsonPath == ResolveJsonPath(opts, sourceFile).value
    ensures r.Ok? ==> r.value.outputDir == Head(opts)
    ensures r.Ok? ==> && r.value.resourcesPath == OutputPath(opts, Resources)
                      && r.value.eventsPath == OutputPath(opts, Events)
                      && r.value.latencyAllPath == OutputPath(opts, LatencyAll)
                      && r.value.latencyTotalPath == OutputPath(opts, LatencyTotal)
  {
    var json :- ResolveJsonPath(opts, sourceFile);
    Ok(Setup(json, Head(opts), OutputPath(opts, Resources), OutputPath(opts, Events),
             OutputPath(opts, LatencyAll), OutputPath(opts, LatencyTotal)))
  }

  /** A non-empty topology path is kept whatever the architecture, even one
      `main` would otherwise reject. */
  lemma GivenJsonPathKept(opts: Options, sourceFile: string)
    requires opts.jsonPath != ""
    ensures ExperimentSetup(opts, sourceFile).Ok?
    ensures ExperimentSetup(opts, sourceFile).value.jsonPath == opts.jsonPath
  {
  }

  /** `complex_rt` has a bundled topology file. */
  lemma ComplexRtAccepted(opts: Options, sourceFile: string)
    requires opts.jsonPath == "" && opts.architecture == "complex_rt"
    ensures ExperimentSetup(opts, sourceFile) ==
              Ok(Setup(DirName(sourceFile) + "/../test_archs/social_rt.json", Head(opts),
                       OutputPath(opts, Resources), OutputPath(opts, Events),
                       OutputPath(opts, LatencyAll), OutputPath(opts, LatencyTotal)))
  {
    var d := DirName(sourceFile);
    assert "/../test_archs/" + "social_rt.json" == "/../test_archs/social_rt.json";
    assert d + "/../test_archs/" + "social_rt.json" == d + ("/../test_archs/" + "social_rt.json");
  }

  /** An output path is its directory, its kind's prefix, then a part every
      kind shares. */
  lemma OutputPathShape(opts: Options, kind: OutputKind)
    ensures OutputPath(opts, kind) == Head(opts) + (KindPrefix(kind) + (Tail(opts) + ".txt"))
  {
    assert Head(opts) + KindPrefix(kind) + Tail(opts) + ".txt" == Head(opts) + (KindPrefix(kind) + (Tail(opts) + ".txt"));
  }

  /** Two different kinds' prefixes disagree at some position both have. */
  lemma PrefixesDiffer(k1: OutputKind, k2: OutputKind) returns (i: nat)
    requires k1 != k2
    ensures i < |KindPrefix(k1)| && i < |KindPrefix(k2)| && KindPrefix(k1)[i] != KindPrefix(k2)[i]
  {
    i := if KindPrefix(k1)[0] == KindPrefix(k2)[0] then 8 else 0;
  }

  /** The four output paths differ only in their prefix, so no two coincide. */
  lemma OutputPathsDistinct(opts: Options, k1: OutputKind, k2: OutputKind)
    requires k1 != k2
    ensures OutputPath(opts, k1) != OutputPath(opts, k2)
  {
    var i := PrefixesDiffer(k1, k2);
    var h := Head(opts);
    var p1, p2 := OutputPath(opts, k1), OutputPath(opts, k2);
    OutputPathShape(opts, k1);
    OutputPathShape(opts, k2);
    assert p1[|h| + i] == KindPrefix(k1)[i];
    assert p2[|h| + i] == KindPrefix(k2)[i];
  }

  /** Kept apart from the lemma below, where the literal pieces make the same
      regrouping too expensive to prove in place. */
  lemma RegroupName(p: string, a: string, i: string, u: string, d: string, s: string, l: string, x: string)
    ensures p + ((a + i + u + d + s + l) + x) == p + a + i + u + d + s + l + x
  {
  }

  /** The latency and resources files the benchmark writes are named exactly
      as the reader's templates format the same ipc flag, duration and load. */
  lemma OutputNamesMatchTemplates(opts: Options)
    ensures OutputPath(opts, LatencyAll) ==
              Head(opts) + Format(LatencyTemplate(), opts.useIpc, opts.duration, opts.load)
    ensures OutputPath(opts, Resources) ==
              Head(opts) + Format(ResourcesTemplate(), opts.useIpc, opts.duration, opts.load)
  {
    var i, d := IntToString(opts.useIpc), IntToString(opts.duration);
    TemplatesSpelledOut(opts.useIpc, opts.duration, opts.load);
    OutputPathShape(opts, LatencyAll);
    OutputPathShape(opts, Resources);
    RegroupName("latency_all", "_ipc-", i, "_", d, "s_", opts.load, ".txt");
    RegroupName("resources", "_ipc-", i, "_", d, "s_", opts.load, ".txt");
  }

  /** Directory components `os.path.join` appends plainly: non-empty, with no
      `/` at either end. */
  predicate PlainComponent(s: string)
  {
    s != "" && !StartsWithSlash(s) && !EndsWithSlash(s)
  }

  /** The file the benchmark writes for latency (resources) is the one the
      reader opens under the same results directory, architecture, rmw, ipc
      flag, duration and load, when those are plain path components. */
  lemma OutputIsReadPath(opts: Options)
    requires opts.experimentPath != "" && !EndsWithSlash(opts.experimentPath)
    requires PlainComponent(opts.architecture) && PlainComponent(opts.rmw)
    ensures OutputPath(opts, LatencyAll) ==
              PathJoin(PathJoin(PathJoin(opts.experimentPath, opts.architecture), opts.rmw),
                       Format(LatencyTemplate(), opts.useIpc, opts.duration, opts.load))
    ensures OutputPath(opts, Resources) ==
              PathJoin(PathJoin(PathJoin(opts.experimentPath, opts.architecture), opts.rmw),
                       Format(ResourcesTemplate(), opts.useIpc, opts.duration, opts.load))
  {
    OutputNamesMatchTemplates(opts);
    var latency := Format(LatencyTemplate(), opts.useIpc, opts.duration, opts.load);
    var resources := Format(ResourcesTemplate(), opts.useIpc, opts.duration, opts.load);
    TemplatesSpelledOut(opts.useIpc, opts.duration, opts.load);
    assert latency[0] == 'l';
    assert resources[0] == 'r';
    PathJoinPlain(opts.experimentPath, opts.architecture, opts.rmw, latency);
    PathJoinPlain(opts.experimentPath, opts.architecture, opts.rmw, resources);
  }
}
