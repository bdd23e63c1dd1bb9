/** `aggregate_results`: the walk over architectures, rmw implementations,
    durations, stress levels and the two ipc settings that reads every result
    file of one kind, tags its rows with where it came from, and concatenates
    them. The file system is a set of directories and a map from file path to
    contents. */
module Aggregation {
  import opened Wrappers
  import opened Seqs
  import opened Frame
  import opened FileNames
  import opened ResultParser
  import ExperimentPaths

  /** The experiment configuration the walk enumerates. */
  datatype Config = Config(archs: seq<string>, rmws: seq<string>, times: seq<int>, stresses: seq<string>)

  /** `EXPERIMENT_ARCHS`, `RMW_IMPLEMENTATIONS`, `EXPERIMENT_TIMES`, `EXPERIMENT_STRESS`. */
  function ExperimentConfig(): Config
  {
    Config(["simple", "medium", "complex"], ["fast", "cyclone", "zenoh"], [300], ["low", "medium", "high"])
  }

  datatype FileSystem = FileSystem(dirs: set<string>, files: map<string, string>)

  /** Latency files (`aggregate_latency_results`) or resources files
      (`aggregate_resources_results`). */
  datatype FileKind = LatencyFiles | ResourcesFiles

  function TemplateOf(kind: FileKind): Template
  {
    match kind
    case LatencyFiles => LatencyTemplate()
    case ResourcesFiles => ResourcesTemplate()
  }

  /** One result file's place in the walk. */
  datatype Coord = Coord(arch: string, rmw: string, time: int, stress: string, ipc: int)

  function ArchDir(root: string, arch: string): string
  {
    PathJoin(root, arch)
  }

  /** `os.path.join(results_path, arch, rmw)`. */
  function RmwDir(root: string, arch: string, rmw: string): string
  {
    PathJoin(PathJoin(root, arch), rmw)
  }

  function ExtraKeys(): seq<string>
  {
    ["Architecture", "RMW", "Test Duration", "CPU Stress", "IPC"]
  }

  /** The `extra_cols` dictionary for one file, in insertion order. */
  function Extras(c: Coord): (d: Dict<Value>)
    ensures Keys(d) == ExtraKeys()
  {
    var d := [("Architecture", Str(c.arch)), ("RMW", Str(c.rmw)), ("Test Duration", Int(c.time)),
              ("CPU Stress", Str(c.stress)), ("IPC", Int(c.ipc))];
    assert KeysUnique(d);
    d
  }

  /** The columns a kind's reader yields before the extra columns. */
  function BaseColumns(kind: FileKind): seq<string>
  {
    match kind
    case LatencyFiles => LatencyColumns() + [ROLE_COLUMN]
    case ResourcesFiles => ResourcesColumns()
  }

  /** The columns of every frame read for a kind of file. */
  function Columns(kind: FileKind): seq<string>
  {
    ExtendColumns(BaseColumns(kind), ExtraKeys())
  }

  /** `read_file_func`: reads the file at a path and adds the extra columns. */
  type Reader = (string, Dict<Value>) -> Result<DataFrame, ReadError>

  /** What one walk is given: the directories that exist, the results
      directory, the read of the file at each place of the walk, and the
      columns the frames read have. */
  datatype Walk = Walk(dirs: set<string>, root: string, read: Coord -> Result<DataFrame, ReadError>, columns: seq<string>)

  /** The reader `aggregate_latency_results` or `aggregate_resources_results` passes. */
  function FileReader(fs: FileSystem, kind: FileKind): Reader
  {
    match kind
    case LatencyFiles => (path, extras) => ReadLatencyFile(fs.files, path, extras)
    case ResourcesFiles => (path, extras) => ReadResourcesFile(fs.files, path, extras)
  }

  /** `os.path.join(test_path, file_template.format(...))` for the file at `c`. */
  function PathAt(root: string, template: Template, c: Coord): string
  {
    PathJoin(RmwDir(root, c.arch, c.rmw), Format(template, c.ipc, c.time, c.stress))
  }

  /** The walk `aggregate_results` makes with a kind's template and reader:
      at each place, `read_file_func(path, extra_cols)`. */
  function WalkOf(fs: FileSystem, root: string, kind: FileKind): Walk
  {
    Walk(fs.dirs, root, c => FileReader(fs, kind)(PathAt(root, TemplateOf(kind), c), Extras(c)), Columns(kind))
  }

  function ReadAt(w: Walk, c: Coord): Result<DataFrame, ReadError>
  {
    w.read(c)
  }

  /** Every frame the reader yields along the walk has the walk's columns. */
  ghost predicate Consistent(w: Walk)
  {
    forall c :: ReadAt(w, c).Ok? ==> ReadAt(w, c).value.columns == w.columns
  }

  /** A kind's reader yields that kind's columns with the extras' keys added,
      and fails on a file that does not exist. */
  lemma FileReaderColumns(fs: FileSystem, kind: FileKind, path: string, extras: Dict<Value>)
    ensures FileReader(fs, kind)(path, extras).Ok? ==>
              FileReader(fs, kind)(path, extras).value.columns == ExtendColumns(BaseColumns(kind), Keys(extras))
    ensures path !in fs.files ==> FileReader(fs, kind)(path, extras) == Err(FileNotFound(path))
  {
  }

  /** Both readers yield their kind's columns, and fail on a file that does not exist. */
  lemma WalkOfConsistent(fs: FileSystem, root: string, kind: FileKind)
    ensures Consistent(WalkOf(fs, root, kind))
    ensures forall c :: PathAt(root, TemplateOf(kind), c) !in fs.files ==>
              ReadAt(WalkOf(fs, root, kind), c) == Err(FileNotFound(PathAt(root, TemplateOf(kind), c)))
  {
    var w := WalkOf(fs, root, kind);
    forall c
      ensures ReadAt(w, c).Ok? ==> ReadAt(w, c).value.columns == w.columns
      ensures PathAt(root, TemplateOf(kind), c) !in fs.files ==>
                ReadAt(w, c) == Err(FileNotFound(PathAt(root, TemplateOf(kind), c)))
    {
      FileReaderColumns(fs, kind, PathAt(root, TemplateOf(kind), c), Extras(c));
    }
  }

  predicate Fits(acc: Option<DataFrame>, cols: seq<string>)
  {
    acc.Some? ==> acc.value.columns == cols
  }

  /** `pd.concat([acc, d], ignore_index=True)`, where a `None` accumulator is dropped. */
  function Append(acc: Option<DataFrame>, d: DataFrame): (r: Option<DataFrame>)
    requires acc.Some? ==> acc.value.columns == d.columns
    ensures r.Some? && r.value.columns == d.columns
    ensures r.value.rows == (if acc.Some? then acc.value.rows else []) + d.rows
  {
    match acc
    case None => Some(d)
    case Some(a) => Some(ConcatFrames(a, d))
  }

  /** The innermost loop: for each stress level, the ipc=0 file then the ipc=1 file. */
  function StressLoop(w: Walk, arch: string, rmw: string, time: int, stresses: seq<string>,
                      acc: Option<DataFrame>): (r: Result<Option<DataFrame>, ReadError>)
    requires Consistent(w) && Fits(acc, w.columns)
    ensures r.Ok? ==> Fits(r.value, w.columns)
  {
    if |stresses| == 0 then Ok(acc)
    else
      var noIpc :- ReadAt(w, Coord(arch, rmw, time, stresses[0], 0));
      var ipc :- ReadAt(w, Coord(arch, rmw, time, stresses[0], 1));
      StressLoop(w, arch, rmw, time, stresses[1..], Append(Append(acc, noIpc), ipc))
  }

  function TimeLoop(w: Walk, arch: string, rmw: string, times: seq<int>, stresses: seq<string>,
                    acc: Option<DataFrame>): (r: Result<Option<DataFrame>, ReadError>)
    requires Consistent(w) && Fits(acc, w.columns)
    ensures r.Ok? ==> Fits(r.value, w.columns)
  {
    if |times| == 0 then Ok(acc)
    else
      var acc' :- StressLoop(w, arch, rmw, times[0], stresses, acc);
      TimeLoop(w, arch, rmw, times[1..], stresses, acc')
  }

  /** The rmw loop: an rmw whose directory is missing is skipped. */
  function RmwLoop(w: Walk, arch: string, rmws: seq<string>, times: seq<int>, stresses: seq<string>,
                   acc: Option<DataFrame>): (r: Result<Option<DataFrame>, ReadError>)
    requires Consistent(w) && Fits(acc, w.columns)
    ensures r.Ok? ==> Fits(r.value, w.columns)
  {
    if |rmws| == 0 then Ok(acc)
    else if RmwDir(w.root, arch, rmws[0]) in w.dirs then
      var acc' :- TimeLoop(w, arch, rmws[0], times, stresses, acc);
      RmwLoop(w, arch, rmws[1..], times, stresses, acc')
    else RmwLoop(w, arch, rmws[1..], times, stresses, acc)
  }

  /** The architecture loop: an architecture whose directory is missing is skipped. */
  function ArchLoop(w: Walk, archs: seq<string>, rmws: seq<string>, times: seq<int>, stresses: seq<string>,
                    acc: Option<DataFrame>): (r: Result<Option<DataFrame>, ReadError>)
    requires Consistent(w) && Fits(acc, w.columns)
    ensures r.Ok? ==> Fits(r.value, w.columns)
  {
    if |archs| == 0 then Ok(acc)
    else if ArchDir(w.root, archs[0]) in w.dirs then
      var acc' :- RmwLoop(w, archs[0], rmws, times, stresses, acc);
      ArchLoop(w, archs[1..], rmws, times, stresses, acc')
    else ArchLoop(w, archs[1..], rmws, times, stresses, acc)
  }

  /** `aggregate_results(results_path, file_template, read_file_func)`: `None`
      when nothing was read. */
  function AggregateResults(fs: FileSystem, root: string, kind: FileKind, cfg: Config): (r: Result<Option<DataFrame>, ReadError>)
    ensures r.Ok? ==> Fits(r.value, Columns(kind))
  {
    WalkOfConsistent(fs, root, kind);
    ArchLoop(WalkOf(fs, root, kind), cfg.archs, cfg.rmws, cfg.times, cfg.stresses, None)
  }

  /** The files of one (architecture, rmw, duration) cell, stress by stress,
      ipc=0 before ipc=1. */
  function StressCoords(arch: string, rmw: string, time: int, stresses: seq<string>): (cs: seq<Coord>)
    ensures |cs| == 2 * |stresses|
  {
    if |stresses| == 0 then []
    else [Coord(arch, rmw, time, stresses[0], 0), Coord(arch, rmw, time, stresses[0], 1)]
         + StressCoords(arch, rmw, time, stresses[1..])
  }

  function TimeCoords(arch: string, rmw: string, times: seq<int>, stresses: seq<string>): (cs: seq<Coord>)
    ensures |cs| == 2 * |times| * |stresses|
  {
    if |times| == 0 then []
    else StressCoords(arch, rmw, times[0], stresses) + TimeCoords(arch, rmw, times[1..], stresses)
  }

  function RmwCoords(dirs: set<string>, root: string, arch: string, rmws: seq<string>,
                     times: seq<int>, stresses: seq<string>): seq<Coord>
  {
    if |rmws| == 0 then []
    else (if RmwDir(root, arch, rmws[0]) in dirs then TimeCoords(arch, rmws[0], times, stresses) else [])
         + RmwCoords(dirs, root, arch, rmws[1..], times, stresses)
  }

  function ArchCoords(dirs: set<string>, root: string, archs: seq<string>, rmws: seq<string>,
                      times: seq<int>, stresses: seq<string>): seq<Coord>
  {
    if |archs| == 0 then []
    else (if ArchDir(root, archs[0]) in dirs then RmwCoords(dirs, root, archs[0], rmws, times, stresses) else [])
         + ArchCoords(dirs, root, archs[1..], rmws, times, stresses)
  }

  /** Every file the walk reads, in the order it reads them. */
  function Visited(dirs: set<string>, root: string, cfg: Config): seq<Coord>
  {
    ArchCoords(dirs, root, cfg.archs, cfg.rmws, cfg.times, cfg.stresses)
  }

  /** Reading `cs` one after the other, appending each frame to `acc`; the
      first failing read is the error. */
  function Fold(w: Walk, cs: seq<Coord>, acc: Option<DataFrame>): (r: Result<Option<DataFrame>, ReadError>)
    requires Consistent(w) && Fits(acc, w.columns)
    ensures r.Ok? ==> Fits(r.value, w.columns)
  {
    if |cs| == 0 then Ok(acc)
    else
      var d :- ReadAt(w, cs[0]);
      Fold(w, cs[1..], Append(acc, d))
  }

  /** Folding `ys` after `xs`, unless `xs` already failed. */
  function FoldOn(w: Walk, r: Result<Option<DataFrame>, ReadError>, ys: seq<Coord>): Result<Option<DataFrame>, ReadError>
    requires Consistent(w) && (r.Ok? ==> Fits(r.value, w.columns))
  {
    match r
    case Ok(acc) => Fold(w, ys, acc)
    case Err(e) => Err(e)
  }

  lemma {:induction false} FoldAppend(w: Walk, xs: seq<Coord>, ys: seq<Coord>, acc: Option<DataFrame>)
    requires Consistent(w) && Fits(acc, w.columns)
    ensures Fold(w, xs + ys, acc) == FoldOn(w, Fold(w, xs, acc), ys)
  {
    if |xs| == 0 {
      assert xs + ys == ys;
    } else {
      assert (xs + ys)[0] == xs[0] && (xs + ys)[1..] == xs[1..] + ys;
      match ReadAt(w, xs[0])
      case Err(e) =>
      case Ok(d) => FoldAppend(w, xs[1..], ys, Append(acc, d));
    }
  }

  lemma {:induction false} StressLoopIsFold(w: Walk, arch: string, rmw: string, time: int, stresses: seq<string>,
                                            acc: Option<DataFrame>)
    requires Consistent(w) && Fits(acc, w.columns)
    ensures StressLoop(w, arch, rmw, time, stresses, acc) == Fold(w, StressCoords(arch, rmw, time, stresses), acc)
  {
    if |stresses| > 0 {
      var c0, c1 := Coord(arch, rmw, time, stresses[0], 0), Coord(arch, rmw, time, stresses[0], 1);
      var rest := StressCoords(arch, rmw, time, stresses[1..]);
      var cs := [c0, c1] + rest;
      assert cs[0] == c0 && cs[1..][0] == c1 && cs[1..][1..] == rest;
      match ReadAt(w, c0)
      case Err(e) =>
      case Ok(d0) =>
        match ReadAt(w, c1)
        case Err(e) =>
        case Ok(d1) => StressLoopIsFold(w, arch, rmw, time, stresses[1..], Append(Append(acc, d0), d1));
    }
  }

  lemma {:induction false} TimeLoopIsFold(w: Walk, arch: string, rmw: string, times: seq<int>, stresses: seq<string>,
                                          acc: Option<DataFrame>)
    requires Consistent(w) && Fits(acc, w.columns)
    ensures TimeLoop(w, arch, rmw, times, stresses, acc) == Fold(w, TimeCoords(arch, rmw, times, stresses), acc)
  {
    if |times| > 0 {
      var xs := StressCoords(arch, rmw, times[0], stresses);
      var ys := TimeCoords(arch, rmw, times[1..], stresses);
      StressLoopIsFold(w, arch, rmw, times[0], stresses, acc);
      FoldAppend(w, xs, ys, acc);
      match Fold(w, xs, acc)
      case Err(e) =>
      case Ok(acc') => TimeLoopIsFold(w, arch, rmw, times[1..], stresses, acc');
    }
  }

  lemma {:induction false} RmwLoopIsFold(w: Walk, arch: string, rmws: seq<string>, times: seq<int>, stresses: seq<string>,
                                         acc: Option<DataFrame>)
    requires Consistent(w) && Fits(acc, w.columns)
    ensures RmwLoop(w, arch, rmws, times, stresses, acc) == Fold(w, RmwCoords(w.dirs, w.root, arch, rmws, times, stresses), acc)
  {
    if |rmws| > 0 {
      var ys := RmwCoords(w.dirs, w.root, arch, rmws[1..], times, stresses);
      if RmwDir(w.root, arch, rmws[0]) in w.dirs {
        var xs := TimeCoords(arch, rmws[0], times, stresses);
        FoldAppend(w, xs, ys, acc);
        TimeLoopIsFold(w, arch, rmws[0], times, stresses, acc);
        match Fold(w, xs, acc)
        case Err(e) =>
        case Ok(acc') => RmwLoopIsFold(w, arch, rmws[1..], times, stresses, acc');
      } else {
        assert [] + ys == ys;
        RmwLoopIsFold(w, arch, rmws[1..], times, stresses, acc);
      }
    }
  }

  lemma {:induction false} ArchLoopIsFold(w: Walk, archs: seq<string>, rmws: seq<string>, times: seq<int>, stresses: seq<string>,
                                          acc: Option<DataFrame>)
    requires Consistent(w) && Fits(acc, w.columns)
    ensures ArchLoop(w, archs, rmws, times, stresses, acc) == Fold(w, ArchCoords(w.dirs, w.root, archs, rmws, times, stresses), acc)
  {
    if |archs| > 0 {
      var ys := ArchCoords(w.dirs, w.root, archs[1..], rmws, times, stresses);
      if ArchDir(w.root, archs[0]) in w.dirs {
        var xs := RmwCoords(w.dirs, w.root, archs[0], rmws, times, stresses);
        FoldAppend(w, xs, ys, acc);
        RmwLoopIsFold(w, archs[0], rmws, times, stresses, acc);
        match Fold(w, xs, acc)
        case Err(e) =>
        case Ok(acc') => ArchLoopIsFold(w, archs[1..], rmws, times, stresses, acc');
      } else {
        assert [] + ys == ys;
        ArchLoopIsFold(w, archs[1..], rmws, times, stresses, acc);
      }
    }
  }

  /** Every file in `cs` reads without error. */
  predicate ReadsOk(w: Walk, cs: seq<Coord>)
  {
    forall i :: 0 <= i < |cs| ==> ReadAt(w, cs[i]).Ok?
  }

  /** The position of the first file in `cs` that fails to read, if any. */
  function FirstFailure(w: Walk, cs: seq<Coord>): (r: Option<nat>)
    ensures r.None? <==> ReadsOk(w, cs)
    ensures r.Some? ==> r.value < |cs| && ReadAt(w, cs[r.value]).Err? && ReadsOk(w, cs[..r.value])
  {
    if |cs| == 0 then None
    else if ReadAt(w, cs[0]).Err? then Some(0)
    else
      match FirstFailure(w, cs[1..])
      case None => None
      case Some(i) =>
        assert cs[..i + 1] == [cs[0]] + cs[1..][..i];
        Some(i + 1)
  }

  /** The rows of the files in `cs`, file after file. */
  function ReadRows(w: Walk, cs: seq<Coord>): seq<seq<Value>>
    requires ReadsOk(w, cs)
  {
    if |cs| == 0 then [] else ReadAt(w, cs[0]).value.rows + ReadRows(w, cs[1..])
  }

  function AccRows(acc: Option<DataFrame>): seq<seq<Value>>
  {
    if acc.Some? then acc.value.rows else []
  }

  /** Every read succeeds exactly when the first does and every later one does. */
  lemma ReadsOkTail(w: Walk, cs: seq<Coord>)
    requires |cs| > 0
    ensures ReadsOk(w, cs) <==> ReadAt(w, cs[0]).Ok? && ReadsOk(w, cs[1..])
  {
    assert forall i :: 1 <= i < |cs| ==> cs[i] == cs[1..][i - 1];
  }

  /** Reading a list of files fails with the first failing file's error;
      otherwise it yields nothing only when there was nothing, and else the
      accumulated rows followed by every file's rows in order. */
  lemma {:induction false} FoldMeaning(w: Walk, cs: seq<Coord>, acc: Option<DataFrame>)
    requires Consistent(w) && Fits(acc, w.columns)
    ensures Fold(w, cs, acc).Err? <==> !ReadsOk(w, cs)
    ensures !ReadsOk(w, cs) ==> Fold(w, cs, acc) == Err(ReadAt(w, cs[FirstFailure(w, cs).value]).error)
    ensures Fold(w, cs, acc).Ok? ==> (Fold(w, cs, acc).value.None? <==> acc.None? && |cs| == 0)
    ensures Fold(w, cs, acc).Ok? && Fold(w, cs, acc).value.Some? ==>
              Fold(w, cs, acc).value.value.rows == AccRows(acc) + ReadRows(w, cs)
  {
    if |cs| > 0 {
      match ReadAt(w, cs[0])
      case Err(e) =>
      case Ok(d) =>
        var acc' := Append(acc, d);
        FoldMeaning(w, cs[1..], acc');
        ReadsOkTail(w, cs);
        if ReadsOk(w, cs) {
          assert AccRows(acc') == AccRows(acc) + d.rows;
          assert AccRows(acc') + ReadRows(w, cs[1..]) == AccRows(acc) + (d.rows + ReadRows(w, cs[1..]));
        }
    }
  }

  /** Every row read comes from one of the files, in the same form. */
  lemma {:induction false} ReadRowsOrigin(w: Walk, cs: seq<Coord>, k: nat) returns (i: nat, j: nat)
    requires ReadsOk(w, cs) && k < |ReadRows(w, cs)|
    ensures i < |cs| && j < |ReadAt(w, cs[i]).value.rows|
    ensures ReadRows(w, cs)[k] == ReadAt(w, cs[i]).value.rows[j]
  {
    var first := ReadAt(w, cs[0]).value.rows;
    if k < |first| {
      i, j := 0, k;
    } else {
      ReadsOkTail(w, cs);
      var i', j' := ReadRowsOrigin(w, cs[1..], k - |first|);
      i, j := i' + 1, j';
    }
  }

  /** `aggregate_results` is reading the visited files in order: it fails with
      the first failing read, returns `None` exactly when no file is visited,
      and otherwise the rows of every visited file in order. */
  lemma AggregateMeaning(fs: FileSystem, root: string, kind: FileKind, cfg: Config)
    ensures var w, cs, r := WalkOf(fs, root, kind), Visited(fs.dirs, root, cfg), AggregateResults(fs, root, kind, cfg);
            && (r.Err? <==> !ReadsOk(w, cs))
            && (r.Err? ==> r == Err(ReadAt(w, cs[FirstFailure(w, cs).value]).error))
            && (r.Ok? ==> (r.value.None? <==> |cs| == 0))
            && (r.Ok? && r.value.Some? ==> r.value.value.rows == ReadRows(w, cs))
  {
    var w := WalkOf(fs, root, kind);
    WalkOfConsistent(fs, root, kind);
    ArchLoopIsFold(w, cfg.archs, cfg.rmws, cfg.times, cfg.stresses, None);
    FoldMeaning(w, Visited(fs.dirs, root, cfg), None);
  }

  /** The places the walk reaches: a listed architecture and rmw whose
      directories exist, a listed duration and stress level, and either ipc
      setting. */
  predicate InWalk(dirs: set<string>, root: string, cfg: Config, c: Coord)
  {
    && c.arch in cfg.archs && ArchDir(root, c.arch) in dirs
    && c.rmw in cfg.rmws && RmwDir(root, c.arch, c.rmw) in dirs
    && c.time in cfg.times && c.stress in cfg.stresses
    && (c.ipc == 0 || c.ipc == 1)
  }

  lemma {:induction false} StressCoordsMembers(arch: string, rmw: string, time: int, stresses: seq<string>, c: Coord)
    ensures c in StressCoords(arch, rmw, time, stresses) <==>
              c.arch == arch && c.rmw == rmw && c.time == time && c.stress in stresses && (c.ipc == 0 || c.ipc == 1)
  {
    if |stresses| > 0 {
      StressCoordsMembers(arch, rmw, time, stresses[1..], c);
      assert c.stress in stresses <==> c.stress == stresses[0] || c.stress in stresses[1..] by {
        assert stresses == [stresses[0]] + stresses[1..];
      }
    }
  }

  lemma {:induction false} TimeCoordsMembers(arch: string, rmw: string, times: seq<int>, stresses: seq<string>, c: Coord)
    ensures c in TimeCoords(arch, rmw, times, stresses) <==>
              c.arch == arch && c.rmw == rmw && c.time in times && c.stress in stresses && (c.ipc == 0 || c.ipc == 1)
  {
    if |times| > 0 {
      StressCoordsMembers(arch, rmw, times[0], stresses, c);
      TimeCoordsMembers(arch, rmw, times[1..], stresses, c);
      assert c.time in times <==> c.time == times[0] || c.time in times[1..] by {
        assert times == [times[0]] + times[1..];
      }
    }
  }

  lemma {:induction false} RmwCoordsMembers(dirs: set<string>, root: string, arch: string, rmws: seq<string>,
                                            times: seq<int>, stresses: seq<string>, c: Coord)
    ensures c in RmwCoords(dirs, root, arch, rmws, times, stresses) <==>
              && c.arch == arch && c.rmw in rmws && RmwDir(root, arch, c.rmw) in dirs
              && c.time in times && c.stress in stresses && (c.ipc == 0 || c.ipc == 1)
  {
    if |rmws| > 0 {
      TimeCoordsMembers(arch, rmws[0], times, stresses, c);
      RmwCoordsMembers(dirs, root, arch, rmws[1..], times, stresses, c);
      assert c.rmw in rmws <==> c.rmw == rmws[0] || c.rmw in rmws[1..] by {
        assert rmws == [rmws[0]] + rmws[1..];
      }
    }
  }

  lemma {:induction false} ArchCoordsMembers(dirs: set<string>, root: string, archs: seq<string>, rmws: seq<string>,
                                             times: seq<int>, stresses: seq<string>, c: Coord)
    ensures c in ArchCoords(dirs, root, archs, rmws, times, stresses) <==>
              InWalk(dirs, root, Config(archs, rmws, times, stresses), c)
  {
    if |archs| > 0 {
      RmwCoordsMembers(dirs, root, archs[0], rmws, times, stresses, c);
      ArchCoordsMembers(dirs, root, archs[1..], rmws, times, stresses, c);
      assert c.arch in archs <==> c.arch == archs[0] || c.arch in archs[1..] by {
        assert archs == [archs[0]] + archs[1..];
      }
    }
  }

  /** A file is visited exactly when it lies in the walk. */
  lemma VisitedMembers(dirs: set<string>, root: string, cfg: Config, c: Coord)
    ensures c in Visited(dirs, root, cfg) <==> InWalk(dirs, root, cfg, c)
  {
    ArchCoordsMembers(dirs, root, cfg.archs, cfg.rmws, cfg.times, cfg.stresses, c);
  }

  /** Kept apart from the walk lemmas below, whose unfolded walks make the
      same step too expensive to prove in place. */
  lemma MulSucc(a: nat, n: nat)
    requires a > 0
    ensures a * n == n + (a - 1) * n
  {
  }

  /** With every directory present, the walk visits two files per
      (architecture, rmw, duration, stress level). */
  lemma {:induction false} FullWalkSize(dirs: set<string>, root: string, archs: seq<string>, rmws: seq<string>,
                                        times: seq<int>, stresses: seq<string>)
    requires forall a :: a in archs ==> ArchDir(root, a) in dirs
    requires forall a, m :: a in archs && m in rmws ==> RmwDir(root, a, m) in dirs
    ensures |ArchCoords(dirs, root, archs, rmws, times, stresses)| == |archs| * (|rmws| * (2 * |times| * |stresses|))
  {
    if |archs| > 0 {
      FullRmwSize(dirs, root, archs[0], rmws, times, stresses);
      FullWalkSize(dirs, root, archs[1..], rmws, times, stresses);
      MulSucc(|archs|, |rmws| * (2 * |times| * |stresses|));
    }
  }

  lemma {:induction false} FullRmwSize(dirs: set<string>, root: string, arch: string, rmws: seq<string>,
                                       times: seq<int>, stresses: seq<string>)
    requires forall m :: m in rmws ==> RmwDir(root, arch, m) in dirs
    ensures |RmwCoords(dirs, root, arch, rmws, times, stresses)| == |rmws| * (2 * |times| * |stresses|)
  {
    if |rmws| > 0 {
      FullRmwSize(dirs, root, arch, rmws[1..], times, stresses);
      MulSucc(|rmws|, 2 * |times| * |stresses|);
    }
  }

  /** A file in the walk that does not exist makes the whole aggregation fail. */
  lemma MissingFileFails(fs: FileSystem, root: string, kind: FileKind, cfg: Config, c: Coord)
    requires InWalk(fs.dirs, root, cfg, c) && PathAt(root, TemplateOf(kind), c) !in fs.files
    ensures AggregateResults(fs, root, kind, cfg).Err?
  {
    var cs := Visited(fs.dirs, root, cfg);
    VisitedMembers(fs.dirs, root, cfg, c);
    WalkOfConsistent(fs, root, kind);
    var i :| 0 <= i < |cs| && cs[i] == c;
    assert ReadAt(WalkOf(fs, root, kind), cs[i]).Err?;
    AggregateMeaning(fs, root, kind, cfg);
  }

  /** `complex_rt`, which the benchmark accepts, is not among the aggregated
      architectures: none of its files is read. */
  lemma ComplexRtNeverRead(dirs: set<string>, root: string, c: Coord)
    requires c.arch == "complex_rt"
    ensures c !in Visited(dirs, root, ExperimentConfig())
  {
    VisitedMembers(dirs, root, ExperimentConfig(), c);
  }

  /** Row `k` carries every extra column's value. */
  predicate RowTagged(t: DataFrame, k: nat, extras: Dict<Value>)
    requires k < |t.rows|
  {
    forall e :: 0 <= e < |extras| ==> Cell(t, k, extras[e].0) == Some(extras[e].1)
  }

  /** A kind's reader, when it succeeds, sets the extras on every row. */
  lemma FileReaderTagged(fs: FileSystem, kind: FileKind, path: string, extras: Dict<Value>)
    ensures FileReader(fs, kind)(path, extras).Ok? ==> Tagged(FileReader(fs, kind)(path, extras).value, extras)
  {
    ReadFileTagged(fs.files, path, extras);
  }

  /** The file at `c`, when it reads, carries `c`'s extra columns on every row. */
  lemma ReadAtTagged(fs: FileSystem, root: string, kind: FileKind, c: Coord)
    ensures ReadAt(WalkOf(fs, root, kind), c).Ok? ==> Tagged(ReadAt(WalkOf(fs, root, kind), c).value, Extras(c))
  {
    FileReaderTagged(fs, kind, PathAt(root, TemplateOf(kind), c), Extras(c));
  }

  /** Two frames with the same columns and the same row agree on its cells. */
  lemma SameRowSameCells(t: DataFrame, k: nat, f: DataFrame, j: nat, extras: Dict<Value>)
    requires k < |t.rows| && j < |f.rows| && t.columns == f.columns && t.rows[k] == f.rows[j]
    requires Tagged(f, extras)
    ensures RowTagged(t, k, extras)
  {
    forall e | 0 <= e < |extras| ensures Cell(t, k, extras[e].0) == Some(extras[e].1) {
      assert Cell(t, k, extras[e].0) == Cell(f, j, extras[e].0);
    }
  }

  /** Every aggregated row is tagged with the architecture, rmw, duration,
      stress level and ipc setting of a file in the walk. */
  lemma AggregateRowsTagged(fs: FileSystem, root: string, kind: FileKind, cfg: Config, k: nat) returns (c: Coord)
    requires AggregateResults(fs, root, kind, cfg).Ok? && AggregateResults(fs, root, kind, cfg).value.Some?
    requires k < |AggregateResults(fs, root, kind, cfg).value.value.rows|
    ensures InWalk(fs.dirs, root, cfg, c)
    ensures RowTagged(AggregateResults(fs, root, kind, cfg).value.value, k, Extras(c))
  {
    var w, cs := WalkOf(fs, root, kind), Visited(fs.dirs, root, cfg);
    var t := AggregateResults(fs, root, kind, cfg).value.value;
    AggregateMeaning(fs, root, kind, cfg);
    WalkOfConsistent(fs, root, kind);
    var i, j := ReadRowsOrigin(w, cs, k);
    c := cs[i];
    VisitedMembers(fs.dirs, root, cfg, c);
    ReadAtTagged(fs, root, kind, c);
    SameRowSameCells(t, k, ReadAt(w, c).value, j, Extras(c));
  }

  /** `aggregate_latency_results(results_path)`. */
  function AggregateLatencyResults(fs: FileSystem, root: string): (r: Result<Option<DataFrame>, ReadError>)
    ensures r.Ok? && r.value.Some? ==> r.value.value.columns == ExtendColumns(LatencyColumns() + [ROLE_COLUMN], ExtraKeys())
  {
    AggregateResults(fs, root, LatencyFiles, ExperimentConfig())
  }

  /** `aggregate_resources_results(results_path)`. */
  function AggregateResourcesResults(fs: FileSystem, root: string): (r: Result<Option<DataFrame>, ReadError>)
    ensures r.Ok? && r.value.Some? ==> r.value.value.columns == ExtendColumns(ResourcesColumns(), ExtraKeys())
  {
    AggregateResults(fs, root, ResourcesFiles, ExperimentConfig())
  }

  /** With all of its directories present, the experiment configuration has
      the walk read 54 files: 3 architectures, 3 rmws, 1 duration, 3 stress
      levels and 2 ipc settings. */
  lemma ExperimentWalkSize(dirs: set<string>, root: string)
    requires forall a :: a in ExperimentConfig().archs ==> ArchDir(root, a) in dirs
    requires forall a, m :: a in ExperimentConfig().archs && m in ExperimentConfig().rmws ==> RmwDir(root, a, m) in dirs
    ensures |Visited(dirs, root, ExperimentConfig())| == 54
  {
    var cfg := ExperimentConfig();
    FullWalkSize(dirs, root, cfg.archs, cfg.rmws, cfg.times, cfg.stresses);
  }

  /** The output kind the benchmark writes for each kind of file read here. */
  function WrittenAs(kind: FileKind): ExperimentPaths.OutputKind
  {
    match kind
    case LatencyFiles => ExperimentPaths.LatencyAll
    case ResourcesFiles => ExperimentPaths.Resources
  }

  /** The file a benchmark run writes under `experiment_path` is the file the
      walk reads for that run's architecture, rmw, duration, load and ipc flag,
      when the results directory and the two directory names are plain. */
  lemma WrittenFileIsRead(opts: ExperimentPaths.Options, kind: FileKind)
    requires opts.experimentPath != "" && !EndsWithSlash(opts.experimentPath)
    requires ExperimentPaths.PlainComponent(opts.architecture) && ExperimentPaths.PlainComponent(opts.rmw)
    ensures ExperimentPaths.OutputPath(opts, WrittenAs(kind)) ==
              PathAt(opts.experimentPath, TemplateOf(kind),
                     Coord(opts.architecture, opts.rmw, opts.duration as int, opts.load, opts.useIpc as int))
  {
    ExperimentPaths.OutputIsReadPath(opts);
  }
}
