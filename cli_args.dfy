// Command-line checks of digital_human_integrated.py and
// digital_human_integrated_async.py: `validate_arguments` (both versions)
// and how `main` turns `--no-stream` / `--enable-stream` into the
// streaming flag each mode runs with. `os.path.exists` and `os.makedirs`
// are inputs.

module CliArgs {
  import opened Wrappers
  import opened PyText

  datatype Mode = Continuous | Single | File

  /** The parsed command line (argparse defaults apply before this point). */
  datatype Args = Args(
    config: string,
    mode: Mode,
    text: Option<string>,
    output: Option<string>,
    noStream: bool,
    enableStream: bool,
    port: int,
    streamTimeout: int,
    maxQueueSize: int)

  /** Why `validate_arguments` returned `False`, one per guarded return. */
  datatype Invalid = MissingConfig | MissingText | BadPort | BadStreamTimeout | BadQueueSize | OutputDirFailed

  /** The filesystem answers the validators consult. */
  datatype FileSystem = FileSystem(present: string -> bool, canCreate: string -> bool)

  /** An optional string argument that Python treats as false: absent or empty. */
  predicate Falsy(s: Option<string>) {
    s.None? || s.value == ""
  }

  // ---------------------------------------------------------------------
  // os.path.dirname

  predicate AllSlashes(s: string) {
    forall j :: 0 <= j < |s| ==> s[j] == '/'
  }

  /** `os.path.dirname` (POSIX): everything up to the last `/`, with the
    * trailing slashes removed unless the head is nothing but slashes. */
  function Dirname(p: string): (d: string)
    ensures |d| <= |p| && d <= p
  {
    var head := p[..AfterLast(p, '/')];
    if head != [] && !AllSlashes(head) then
      var d := RStrip(head, c => c == '/');
      assert d == head[..|d|];
      d
    else head
  }

  /** A bare file name has no directory part. */
  lemma DirnameBareName(p: string)
    requires forall j :: 0 <= j < |p| ==> p[j] != '/'
    ensures Dirname(p) == ""
  {
  }

  /** `dirname(d + "/" + f)` is `d` for a bare name `f` and a directory
    * `d` that does not end in a slash. */
  lemma DirnameOfJoin(d: string, f: string)
    requires d != [] && d[|d| - 1] != '/'
    requires forall j :: 0 <= j < |f| ==> f[j] != '/'
    ensures Dirname(d + "/" + f) == d
  {
    var p := d + "/" + f;
    assert p[|d|] == '/';
    assert forall j :: |d| < j < |p| ==> p[j] == f[j - |d| - 1];
    var i := AfterLast(p, '/');
    assert i == |d| + 1;
    var head := p[..i];
    assert head == d + "/";
    assert head[|head| - 1 - 1] == d[|d| - 1];
    assert TrailCount(head[..|head| - 1], c => c == '/') == 0;
    assert head[..|head| - 1] == d;
  }

  // ---------------------------------------------------------------------
  // validate_arguments

  /** The output check of digital_human_integrated.py: a non-empty
    * directory part that does not exist must be creatable. */
  predicate OutputDirFails(output: Option<string>, fs: FileSystem) {
    !Falsy(output) && Dirname(output.value) != ""
    && !fs.present(Dirname(output.value)) && !fs.canCreate(Dirname(output.value))
  }

  /** `validate_arguments` of digital_human_integrated.py: `None` when the
    * arguments are accepted, otherwise the first check that failed. */
  function ValidateIntegrated(args: Args, fs: FileSystem): (r: Option<Invalid>)
    ensures r.None? <==>
      fs.present(args.config) && !(args.mode == Single && Falsy(args.text))
      && 1 <= args.port <= 65535 && !OutputDirFails(args.output, fs)
    ensures r.Some? ==> r.value in {MissingConfig, MissingText, BadPort, OutputDirFailed}
    ensures r == Some(MissingText) ==> fs.present(args.config)
    ensures r == Some(BadPort) ==> fs.present(args.config) && !(args.mode == Single && Falsy(args.text))
  {
    if !fs.present(args.config) then Some(MissingConfig)
    else if args.mode == Single && Falsy(args.text) then Some(MissingText)
    else if args.port < 1 || args.port > 65535 then Some(BadPort)
    else if OutputDirFails(args.output, fs) then Some(OutputDirFailed)
    else None
  }

  /** `validate_arguments` of digital_human_integrated_async.py: the output
    * check is gone, the timeout and the queue size are checked instead. */
  function ValidateAsync(args: Args, fs: FileSystem): (r: Option<Invalid>)
    ensures r.None? <==>
      fs.present(args.config) && !(args.mode == Single && Falsy(args.text))
      && 1 <= args.port <= 65535 && args.streamTimeout >= 10 && args.maxQueueSize >= 1
    ensures r.Some? ==> r.value in {MissingConfig, MissingText, BadPort, BadStreamTimeout, BadQueueSize}
    ensures r == Some(BadStreamTimeout) ==>
      fs.present(args.config) && !(args.mode == Single && Falsy(args.text)) && 1 <= args.port <= 65535
    ensures r == Some(BadQueueSize) ==> args.streamTimeout >= 10
  {
    if !fs.present(args.config) then Some(MissingConfig)
    else if args.mode == Single && Falsy(args.text) then Some(MissingText)
    else if args.port < 1 || args.port > 65535 then Some(BadPort)
    else if args.streamTimeout < 10 then Some(BadStreamTimeout)
    else if args.maxQueueSize < 1 then Some(BadQueueSize)
    else None
  }

  /** The two validators agree on the checks they share: each rejects for a
    * missing config, missing text or bad port exactly when the other does. */
  lemma ValidatorsShareChecks(args: Args, fs: FileSystem)
    ensures ValidateAsync(args, fs) in {Some(MissingConfig), Some(MissingText), Some(BadPort)}
      <==> ValidateIntegrated(args, fs) in {Some(MissingConfig), Some(MissingText), Some(BadPort)}
    ensures ValidateAsync(args, fs) in {Some(MissingConfig), Some(MissingText), Some(BadPort)}
      ==> ValidateAsync(args, fs) == ValidateIntegrated(args, fs)
  {
  }

  // ---------------------------------------------------------------------
  // Stream flags in main

  /** The status `main` logs before running (lines 322-327). */
  function StreamStatusShown(mode: Mode, noStream: bool, enableStream: bool): bool {
    if mode == File then enableStream && !noStream else !noStream
  }

  /** What each branch passes to its runner: `disable_stream=no_stream` in
    * continuous mode, `enable_stream=not no_stream` in single mode, and
    * `enable_stream and not no_stream` in file mode. */
  function StreamPassed(mode: Mode, noStream: bool, enableStream: bool): (streams: bool)
    ensures noStream ==> !streams
    ensures mode != File ==> (streams <==> !noStream)
    ensures mode == File ==> (streams <==> enableStream && !noStream)
  {
    match mode
    case Continuous => var disableStream := noStream; !disableStream
    case Single => !noStream
    case File => enableStream && !noStream
  }

  /** Whether the chosen mode's run streams. Single and file mode overwrite
    * `config.enable_streaming` with the flag they are passed (lines 166 and
    * 263); continuous mode only ever clears it (lines 116-117), so there the
    * value loaded from the config file, `configStreams`, also counts. */
  function StreamsInRun(mode: Mode, noStream: bool, enableStream: bool, configStreams: bool): (streams: bool)
    ensures streams ==> StreamPassed(mode, noStream, enableStream)
    ensures mode != Continuous ==> streams == StreamPassed(mode, noStream, enableStream)
    ensures mode == Continuous ==> (streams <==> !noStream && configStreams)
  {
    match mode
    case Continuous => var disableStream := noStream; if disableStream then false else configStreams
    case Single => !noStream
    case File => enableStream && !noStream
  }

  /** The logged status is the flag passed to the runner. It is what the run
    * does except in one case: continuous mode without `--no-stream` under a
    * config file that disables streaming, where the log says enabled and the
    * run does not stream. */
  lemma StatusMatchesRun(mode: Mode, noStream: bool, enableStream: bool, configStreams: bool)
    ensures StreamStatusShown(mode, noStream, enableStream) == StreamPassed(mode, noStream, enableStream)
    ensures StreamStatusShown(mode, noStream, enableStream) != StreamsInRun(mode, noStream, enableStream, configStreams)
      <==> mode == Continuous && !noStream && !configStreams
  {
  }
}
