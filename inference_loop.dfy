// The frame loops of inference.py (a script that stops at the first
// error) and inference_improved.py (a `main` that counts skipped and
// processed frames and returns an exit code).

module InferenceLoop {
  import opened Wrappers
  import opened Landmarks
  import opened FaceBox
  import opened PasteBack
  import FW = FeatureWindow
  import IW = IndexWalk

  /** The `--asr` choice. */
  datatype Mode = Hubert | Wenet

  /** `if mode == "hubert" ... elif mode == "wenet" ... else: raise ValueError`. */
  function ParseMode(asr: string): (r: Result<Mode>)
    ensures r.Ok? <==> asr == "hubert" || asr == "wenet"
    ensures r == Ok(Hubert) <==> asr == "hubert"
  {
    if asr == "hubert" then Ok(Hubert)
    else if asr == "wenet" then Ok(Wenet)
    else Err(ValueError("unsupported mode"))
  }

  /** Frame rate of the written video. */
  function Fps(m: Mode): nat {
    match m
    case Hubert => 25
    case Wenet => 20
  }

  /** Number of values the reshape of the window needs: `(16, 32, 32)` for
    * hubert and `(128, 16, 32)` for wenet. */
  function AudioElements(m: Mode): nat {
    match m
    case Hubert => 16 * 32 * 32
    case Wenet => 128 * 16 * 32
  }

  function ElementCount(w: seq<FW.Row>): nat {
    if w == [] then 0 else |w[0]| + ElementCount(w[1..])
  }

  /** The files a run reads, as observed. `images[k]` is present when
    * `full_body_img/k.jpg` exists and is `None` when `cv2.imread` cannot
    * decode it; `landmarks[k]` holds the lines of `landmarks/k.lms`.
    * `dirEntries` is `len(os.listdir(img_dir))`. */
  datatype Dataset = Dataset(images: map<int, Option<Grid>>, landmarks: map<int, seq<string>>, dirEntries: nat)
  {
    function LenImg(): int { dirEntries - 1 }
  }

  /** A decoded image is a rectangular array. */
  predicate Rectangular(ds: Dataset) {
    forall k :: k in ds.images && ds.images[k].Some? ==> IsImage(ds.images[k].value, |ds.images[k].value|, Width(ds.images[k].value))
  }

  /** The opaque collaborators of a frame: float parsing of a landmark
    * token, `cv2.resize` and the network. */
  datatype Tools = Tools(parse: CoordParser, resize: Resizer, net: Network)

  ghost predicate ToolsShapes(t: Tools) {
    ResizerShapes(t.resize) && NetworkShapes(t.net)
  }

  datatype SkipReason = MissingImage | MissingLandmarks | UnreadableImage | TooFewLandmarks | InvalidCrop | FrameException

  datatype FrameOutcome = Written(frame: Grid) | Skipped(reason: SkipReason)

  /** The `try` body of one iteration of inference_improved.py for frame `i`
    * showing image `idx`. `alarm` says that the timeout signal arrives while
    * this frame is being processed: the handler's `TimeoutError` derives
    * from `Exception`, so the per-frame `except Exception` catches it. */
  function ImprovedFrame(ds: Dataset, tools: Tools, feats: seq<FW.Row>, mode: Mode, i: nat, idx: int, alarm: bool): (o: FrameOutcome)
    requires ToolsShapes(tools) && Rectangular(ds)
    ensures alarm ==> o == Skipped(FrameException)
    ensures o.Written? ==>
      idx in ds.images && idx in ds.landmarks && ds.images[idx].Some?
      && |LenientPoints(ds.landmarks[idx], tools.parse)| >= 10
      && IsImage(o.frame, |ds.images[idx].value|, Width(ds.images[idx].value))
  {
    if alarm then Skipped(FrameException)
    else if idx !in ds.images then Skipped(MissingImage)
    else if idx !in ds.landmarks then Skipped(MissingLandmarks)
    else if ds.images[idx].None? then Skipped(UnreadableImage)
    else
      var img := ds.images[idx].value;
      var pts := LenientPoints(ds.landmarks[idx], tools.parse);
      if |pts| < 10 then Skipped(TooFewLandmarks)
      else
        match CropBox(pts, Width(img), |img|)
        case None => Skipped(InvalidCrop)
        case Some(box) =>
          var window := FW.GetAudioFeatures(feats, i);
          if ElementCount(window) != AudioElements(mode) then Skipped(FrameException)
          else Written(RenderFace(img, box, tools.resize, tools.net, window))
  }

  /** A fresh frame buffer holding an image. */
  method ToArray(g: Grid) returns (a: array2<Pixel>)
    requires IsImage(g, |g|, Width(g))
    ensures fresh(a) && a.Length0 == |g| && a.Length1 == Width(g)
    ensures GridOf(a) == g
  {
    a := new Pixel[|g|, Width(g)]((r, c) requires 0 <= r < |g| && 0 <= c < Width(g) => g[r][c]);
    GridExt(GridOf(a), g, |g|, Width(g));
  }

  /** One iteration of the `try` body, on a freshly read frame buffer. */
  method ProcessFrame(ds: Dataset, tools: Tools, feats: seq<FW.Row>, mode: Mode, i: nat, idx: int, alarm: bool)
    returns (o: FrameOutcome)
    requires ToolsShapes(tools) && Rectangular(ds)
    ensures o == ImprovedFrame(ds, tools, feats, mode, i, idx, alarm)
  {
    if alarm {
      return Skipped(FrameException);
    }
    if idx !in ds.images {
      return Skipped(MissingImage);
    }
    if idx !in ds.landmarks {
      return Skipped(MissingLandmarks);
    }
    if ds.images[idx].None? {
      return Skipped(UnreadableImage);
    }
    var grid := ds.images[idx].value;
    var lms := ReadLandmarks(ds.landmarks[idx], tools.parse, true);
    assert lms == Ok(LenientPoints(ds.landmarks[idx], tools.parse));
    var lmsList := lms.value;
    if |lmsList| < 10 {
      return Skipped(TooFewLandmarks);
    }
    var box := CropBox(lmsList, Width(grid), |grid|);
    if box.None? {
      return Skipped(InvalidCrop);
    }
    var audioFeat := FW.GetAudioFeatures(feats, i);
    if ElementCount(audioFeat) != AudioElements(mode) {
      return Skipped(FrameException);
    }
    var img := ToArray(grid);
    RenderFrame(img, box.value, tools.resize, tools.net, audioFeat);
    o := Written(GridOf(img));
  }

  /** `total_frames`: the feature row count, capped by `max_frames`; a
    * negative cap iterates nothing. */
  function FramesToProcess(rows: nat, maxFrames: Option<int>): (n: nat)
    ensures maxFrames.None? ==> n == rows
    ensures maxFrames.Some? && maxFrames.value < 0 ==> n == 0
    ensures maxFrames.Some? && 0 <= maxFrames.value ==>
      n <= rows && n <= maxFrames.value && (n == rows || n == maxFrames.value)
  {
    match maxFrames
    case None => rows
    case Some(m) => if rows <= m then rows else if m < 0 then 0 else m
  }

  /** Image index shown by frame `i`: the walk is advanced first, so frame
    * `i` sees the state after `i + 1` steps whatever happened before. */
  function FrameImage(ds: Dataset, i: nat): int {
    IW.PingPongAfter(ds.LenImg(), i + 1).idx
  }

  /** Outcomes of the first `n` frames. */
  function Outcomes(ds: Dataset, tools: Tools, feats: seq<FW.Row>, mode: Mode, alarm: Option<nat>, n: nat): (os: seq<FrameOutcome>)
    requires ToolsShapes(tools) && Rectangular(ds)
    ensures |os| == n
  {
    if n == 0 then []
    else Outcomes(ds, tools, feats, mode, alarm, n - 1) + [ImprovedFrame(ds, tools, feats, mode, n - 1, FrameImage(ds, n - 1), alarm == Some(n - 1))]
  }

  /** Frame `k` of the run is the outcome of iteration `k` on the image the
    * ping-pong walk shows then. */
  lemma {:induction false} OutcomeAt(ds: Dataset, tools: Tools, feats: seq<FW.Row>, mode: Mode, alarm: Option<nat>, n: nat, k: nat)
    requires ToolsShapes(tools) && Rectangular(ds) && k < n
    ensures Outcomes(ds, tools, feats, mode, alarm, n)[k] == ImprovedFrame(ds, tools, feats, mode, k, FrameImage(ds, k), alarm == Some(k))
  {
    if k < n - 1 {
      OutcomeAt(ds, tools, feats, mode, alarm, n - 1, k);
    }
  }

  function WrittenFrames(os: seq<FrameOutcome>): seq<Grid> {
    if os == [] then []
    else WrittenFrames(os[..|os| - 1]) + (if os[|os| - 1].Written? then [os[|os| - 1].frame] else [])
  }

  function SkippedCount(os: seq<FrameOutcome>): nat {
    if os == [] then 0
    else SkippedCount(os[..|os| - 1]) + (if os[|os| - 1].Skipped? then 1 else 0)
  }

  /** Every frame is either written or skipped, never both. */
  lemma {:induction false} CountsAddUp(os: seq<FrameOutcome>)
    ensures |WrittenFrames(os)| + SkippedCount(os) == |os|
  {
    if os != [] {
      CountsAddUp(os[..|os| - 1]);
    }
  }

  /** The written frames are the `Written` outcomes in order. */
  lemma {:induction false} WrittenInOrder(os: seq<FrameOutcome>, k: nat)
    requires k < |os| && os[k].Written?
    ensures os[k].frame in WrittenFrames(os)
  {
    if k < |os| - 1 {
      assert os[..|os| - 1][k] == os[k];
      WrittenInOrder(os[..|os| - 1], k);
    }
  }

  /** One more iteration appends its outcome to the written frames or to
    * the skip count. */
  lemma OutcomesStep(ds: Dataset, tools: Tools, feats: seq<FW.Row>, mode: Mode, alarm: Option<nat>, i: nat)
    requires ToolsShapes(tools) && Rectangular(ds)
    ensures var o := ImprovedFrame(ds, tools, feats, mode, i, FrameImage(ds, i), alarm == Some(i));
      WrittenFrames(Outcomes(ds, tools, feats, mode, alarm, i + 1))
        == WrittenFrames(Outcomes(ds, tools, feats, mode, alarm, i)) + (if o.Written? then [o.frame] else [])
      && SkippedCount(Outcomes(ds, tools, feats, mode, alarm, i + 1))
        == SkippedCount(Outcomes(ds, tools, feats, mode, alarm, i)) + (if o.Skipped? then 1 else 0)
  {
    var o := ImprovedFrame(ds, tools, feats, mode, i, FrameImage(ds, i), alarm == Some(i));
    assert Outcomes(ds, tools, feats, mode, alarm, i + 1) == Outcomes(ds, tools, feats, mode, alarm, i) + [o];
    CountsSnoc(Outcomes(ds, tools, feats, mode, alarm, i), o);
  }

  /** The counters after one more outcome. */
  lemma CountsSnoc(os: seq<FrameOutcome>, o: FrameOutcome)
    ensures WrittenFrames(os + [o]) == WrittenFrames(os) + (if o.Written? then [o.frame] else [])
    ensures SkippedCount(os + [o]) == SkippedCount(os) + (if o.Skipped? then 1 else 0)
  {
    assert (os + [o])[..|os|] == os;
  }

  /** What a run of `main` leaves behind. */
  datatype RunResult = RunResult(exitCode: int, video: seq<Grid>, processed: nat, skipped: nat)

  /** The observable of inference_improved.py's `main`, as written. */
  function ImprovedMain(ds: Dataset, tools: Tools, feats: seq<FW.Row>, asr: string, writerOpens: bool,
                        maxFrames: Option<int>, alarm: Option<nat>): (r: RunResult)
    requires ToolsShapes(tools) && Rectangular(ds)
    ensures r.exitCode == 0 || r == RunResult(1, [], 0, 0)
    ensures r.processed == |r.video|
  {
    if 0 !in ds.images || ds.images[0].None? then RunResult(1, [], 0, 0)
    else if ParseMode(asr).Err? then RunResult(1, [], 0, 0)
    else if !writerOpens then RunResult(1, [], 0, 0)
    else
      var os := Outcomes(ds, tools, feats, ParseMode(asr).value, alarm, FramesToProcess(|feats|, maxFrames));
      RunResult(0, WrittenFrames(os), |WrittenFrames(os)|, SkippedCount(os))
  }

  /** `main`: the setup checks, then the frame loop with its counters. */
  method RunImproved(ds: Dataset, tools: Tools, feats: seq<FW.Row>, asr: string, writerOpens: bool,
                     maxFrames: Option<int>, alarm: Option<nat>) returns (res: RunResult)
    requires ToolsShapes(tools) && Rectangular(ds)
    ensures res == ImprovedMain(ds, tools, feats, asr, writerOpens, maxFrames, alarm)
  {
    if 0 !in ds.images || ds.images[0].None? {
      return RunResult(1, [], 0, 0);
    }
    var mode := ParseMode(asr);
    if mode.Err? {
      return RunResult(1, [], 0, 0);
    }
    if !writerOpens {
      return RunResult(1, [], 0, 0);
    }
    var totalFrames := FramesToProcess(|feats|, maxFrames);
    var video, processedFrames, skippedFrames := FrameLoop(ds, tools, feats, mode.value, totalFrames, alarm);
    res := RunResult(0, video, processedFrames, skippedFrames);
  }

  /** The `for i in range(total_frames)` loop with its two counters. */
  method FrameLoop(ds: Dataset, tools: Tools, feats: seq<FW.Row>, mode: Mode, totalFrames: nat, alarm: Option<nat>)
    returns (video: seq<Grid>, processedFrames: nat, skippedFrames: nat)
    requires ToolsShapes(tools) && Rectangular(ds)
    ensures video == WrittenFrames(Outcomes(ds, tools, feats, mode, alarm, totalFrames))
    ensures processedFrames == |video|
    ensures skippedFrames == SkippedCount(Outcomes(ds, tools, feats, mode, alarm, totalFrames))
  {
    var stepStride, imgIdx := 0, 0;
    processedFrames, skippedFrames := 0, 0;
    video := [];
    for i := 0 to totalFrames
      invariant IW.WalkState(imgIdx, stepStride) == IW.PingPongAfter(ds.LenImg(), i)
      invariant video == WrittenFrames(Outcomes(ds, tools, feats, mode, alarm, i))
      invariant processedFrames == |video|
      invariant skippedFrames == SkippedCount(Outcomes(ds, tools, feats, mode, alarm, i))
    {
      var st := IW.PingPongStep(ds.LenImg(), IW.WalkState(imgIdx, stepStride));
      imgIdx, stepStride := st.idx, st.stride;
      var o := ProcessFrame(ds, tools, feats, mode, i, imgIdx, alarm == Some(i));
      OutcomesStep(ds, tools, feats, mode, alarm, i);
      if o.Written? {
        video := video + [o.frame];
        processedFrames := processedFrames + 1;
      } else {
        skippedFrames := skippedFrames + 1;
      }
    }
  }

  /** Exit code 0 exactly when the example image reads, the mode is known
    * and the writer opens; then every iterated frame is either written or
    * skipped, and `processed` counts the written ones. */
  lemma ImprovedMainCounts(ds: Dataset, tools: Tools, feats: seq<FW.Row>, asr: string, writerOpens: bool,
                           maxFrames: Option<int>, alarm: Option<nat>)
    requires ToolsShapes(tools) && Rectangular(ds)
    ensures var r := ImprovedMain(ds, tools, feats, asr, writerOpens, maxFrames, alarm);
      (r.exitCode == 0 <==> 0 in ds.images && ds.images[0].Some? && (asr == "hubert" || asr == "wenet") && writerOpens)
      && (r.exitCode != 0 ==> r.video == [] && r.processed == 0 && r.skipped == 0)
      && (r.exitCode == 0 ==> r.processed == |r.video| && r.processed + r.skipped == FramesToProcess(|feats|, maxFrames))
  {
    if 0 in ds.images && ds.images[0].Some? && ParseMode(asr).Ok? && writerOpens {
      CountsAddUp(Outcomes(ds, tools, feats, ParseMode(asr).value, alarm, FramesToProcess(|feats|, maxFrames)));
    }
  }

  /** Two-token lines that do not parse are dropped, so a frame is skipped
    * for its landmarks exactly when fewer than ten lines parse, and no such
    * frame is written. */
  lemma FewLandmarksSkip(ds: Dataset, tools: Tools, feats: seq<FW.Row>, mode: Mode, i: nat, idx: int)
    requires ToolsShapes(tools) && Rectangular(ds)
    requires idx in ds.images && idx in ds.landmarks && ds.images[idx].Some?
    requires |LenientPoints(ds.landmarks[idx], tools.parse)| < 10
    ensures ImprovedFrame(ds, tools, feats, mode, i, idx, false) == Skipped(TooFewLandmarks)
  {
  }

  /** A written frame equals its source image outside the face box. */
  lemma WrittenFrameKeepsBackground(ds: Dataset, tools: Tools, feats: seq<FW.Row>, mode: Mode, i: nat, idx: int)
    requires ToolsShapes(tools) && Rectangular(ds)
    requires ImprovedFrame(ds, tools, feats, mode, i, idx, false).Written?
    ensures idx in ds.images && ds.images[idx].Some?
    ensures var img := ds.images[idx].value;
      var pts := LenientPoints(ds.landmarks[idx], tools.parse);
      |pts| >= 10 && CropBox(pts, Width(img), |img|).Some?
      && var box := CropBox(pts, Width(img), |img|).value;
      var out := ImprovedFrame(ds, tools, feats, mode, i, idx, false).frame;
      IsImage(out, |img|, Width(img))
      && forall r, c :: 0 <= r < |img| && 0 <= c < Width(img) && !InRect(r, c, box.ymin, box.xmin, box.ymax - box.ymin, box.xmax - box.xmin) ==>
        out[r][c] == img[r][c]
  {
    var img := ds.images[idx].value;
    var pts := LenientPoints(ds.landmarks[idx], tools.parse);
    var box := CropBox(pts, Width(img), |img|).value;
    RenderOnlyTheBox(img, box, tools.resize, tools.net, FW.GetAudioFeatures(feats, i));
  }

  /** As written, a timeout signal that arrives during frame `k` only
    * skips that frame: the loop goes on and `main` still returns 0, so the
    * `except TimeoutError` branch that returns 1 is not reached. */
  lemma TimeoutIsSwallowed(ds: Dataset, tools: Tools, feats: seq<FW.Row>, asr: string, maxFrames: Option<int>, k: nat)
    requires ToolsShapes(tools) && Rectangular(ds)
    requires 0 in ds.images && ds.images[0].Some? && ParseMode(asr).Ok?
    requires k < FramesToProcess(|feats|, maxFrames)
    ensures ImprovedMain(ds, tools, feats, asr, true, maxFrames, Some(k)).exitCode == 0
    ensures Outcomes(ds, tools, feats, ParseMode(asr).value, Some(k), FramesToProcess(|feats|, maxFrames))[k]
      == Skipped(FrameException)
  {
    OutcomeAt(ds, tools, feats, ParseMode(asr).value, Some(k), FramesToProcess(|feats|, maxFrames), k);
  }

  /** `main` with the timeout ending the run, as its `except TimeoutError`
    * branch intends: the frames before `k` are kept and the exit code is 1. */
  function ImprovedMainTimed(ds: Dataset, tools: Tools, feats: seq<FW.Row>, asr: string, writerOpens: bool,
                             maxFrames: Option<int>, alarm: Option<nat>): (r: RunResult)
    requires ToolsShapes(tools) && Rectangular(ds)
    ensures r.processed == |r.video|
    ensures alarm.None? ==> r == ImprovedMain(ds, tools, feats, asr, writerOpens, maxFrames, None)
  {
    var total := FramesToProcess(|feats|, maxFrames);
    if alarm.Some? && alarm.value < total && 0 in ds.images && ds.images[0].Some? && ParseMode(asr).Ok? && writerOpens then
      var os := Outcomes(ds, tools, feats, ParseMode(asr).value, None, alarm.value);
      RunResult(1, WrittenFrames(os), |WrittenFrames(os)|, SkippedCount(os))
    else ImprovedMain(ds, tools, feats, asr, writerOpens, maxFrames, None)
  }

  /** With the timeout ending the run the exit code is 1 and only the frames
    * before the alarm are counted; without an alarm inside the run nothing
    * differs from the code as written. */
  lemma TimedRunStops(ds: Dataset, tools: Tools, feats: seq<FW.Row>, asr: string, maxFrames: Option<int>, alarm: Option<nat>)
    requires ToolsShapes(tools) && Rectangular(ds)
    requires 0 in ds.images && ds.images[0].Some? && ParseMode(asr).Ok?
    ensures var r := ImprovedMainTimed(ds, tools, feats, asr, true, maxFrames, alarm);
      alarm.Some? && alarm.value < FramesToProcess(|feats|, maxFrames) ==>
        r.exitCode == 1 && r.processed + r.skipped == alarm.value && r.processed == |r.video|
    ensures !(alarm.Some? && alarm.value < FramesToProcess(|feats|, maxFrames)) ==>
      ImprovedMainTimed(ds, tools, feats, asr, true, maxFrames, alarm) == ImprovedMain(ds, tools, feats, asr, true, maxFrames, alarm)
  {
    var total := FramesToProcess(|feats|, maxFrames);
    if alarm.Some? && alarm.value < total {
      CountsAddUp(Outcomes(ds, tools, feats, ParseMode(asr).value, None, alarm.value));
    } else {
      OutcomesNoAlarm(ds, tools, feats, ParseMode(asr).value, alarm, total);
    }
  }

  /** An alarm at or after the last frame changes no outcome. */
  lemma OutcomesNoAlarm(ds: Dataset, tools: Tools, feats: seq<FW.Row>, mode: Mode, alarm: Option<nat>, n: nat)
    requires ToolsShapes(tools) && Rectangular(ds)
    requires alarm.None? || alarm.value >= n
    ensures Outcomes(ds, tools, feats, mode, alarm, n) == Outcomes(ds, tools, feats, mode, None, n)
  {
    var a := Outcomes(ds, tools, feats, mode, alarm, n);
    var b := Outcomes(ds, tools, feats, mode, None, n);
    forall i | 0 <= i < n
      ensures a[i] == b[i]
    {
      OutcomeAt(ds, tools, feats, mode, alarm, n, i);
      OutcomeAt(ds, tools, feats, mode, None, n, i);
    }
  }

  // ---------------------------------------------------------------------
  // inference.py: the same steps at module level, where a missing file,
  // an unreadable number or a failed reshape ends the script.

  /** One iteration of inference.py: `Err` ends the script, `Ok(None)` is a
    * skipped frame and `Ok(Some(f))` a written one. */
  function PlainFrame(ds: Dataset, tools: Tools, feats: seq<FW.Row>, mode: Result<Mode>, i: nat, idx: int): (r: Result<Option<Grid>>)
    requires ToolsShapes(tools) && Rectangular(ds)
    ensures r.Ok? && r.value.Some? ==>
      mode.Ok? && idx in ds.images && idx in ds.landmarks && ds.images[idx].Some?
      && IsImage(r.value.value, |ds.images[idx].value|, Width(ds.images[idx].value))
  {
    if idx !in ds.images || ds.images[idx].None? then Err(RuntimeError("img is None"))
    else if idx !in ds.landmarks then Err(FileNotFoundError("lms_path"))
    else
      var img := ds.images[idx].value;
      match ParseLines(ds.landmarks[idx], tools.parse, false)
      case Err(e) => Err(e)
      case Ok(pts) =>
        if |pts| < 10 then Ok(None)
        else
          match CropBox(pts, Width(img), |img|)
          case None => Ok(None)
          case Some(box) =>
            var window := FW.GetAudioFeatures(feats, i);
            if mode.Ok? && ElementCount(window) != AudioElements(mode.value) then Err(RuntimeError("reshape"))
            else if mode.Err? then Err(RuntimeError("video_writer is not defined"))
            else Ok(Some(RenderFace(img, box, tools.resize, tools.net, window)))
  }

  /** The frames written by inference.py before it ends, and the error
    * that ended it, if any. */
  datatype PlainRun = PlainRun(video: seq<Grid>, crash: Option<Error>)

  function PlainFrom(ds: Dataset, tools: Tools, feats: seq<FW.Row>, mode: Result<Mode>, i: nat): (r: PlainRun)
    requires ToolsShapes(tools) && Rectangular(ds)
    ensures i <= |feats| ==> |r.video| <= |feats| - i
    decreases |feats| - i
  {
    if i >= |feats| then PlainRun([], None)
    else match PlainFrame(ds, tools, feats, mode, i, FrameImage(ds, i))
      case Err(e) => PlainRun([], Some(e))
      case Ok(f) =>
        var rest := PlainFrom(ds, tools, feats, mode, i + 1);
        PlainRun((if f.Some? then [f.value] else []) + rest.video, rest.crash)
  }

  /** The script: `exm_img.shape` fails first when `0.jpg` cannot be read;
    * then one iteration per feature row; then `video_writer.release()`,
    * which fails whenever `--asr` bound no writer, even when no frame
    * reached the write. */
  function PlainInference(ds: Dataset, tools: Tools, feats: seq<FW.Row>, asr: string): (r: PlainRun)
    requires ToolsShapes(tools) && Rectangular(ds)
    ensures ParseMode(asr).Err? ==> r.crash.Some? && r.video == []
  {
    if 0 !in ds.images || ds.images[0].None? then PlainRun([], Some(RuntimeError("exm_img is None")))
    else
      var run := PlainFrom(ds, tools, feats, ParseMode(asr), 0);
      if ParseMode(asr).Err? then
        InvalidModeWritesNothing(ds, tools, feats, ParseMode(asr), 0);
        if run.crash.None? then PlainRun(run.video, Some(RuntimeError("video_writer is not defined"))) else run
      else run
  }

  /** Without a writer no frame is ever written: every frame that gets as
    * far as the write raises there. */
  lemma {:induction false} InvalidModeWritesNothing(ds: Dataset, tools: Tools, feats: seq<FW.Row>, mode: Result<Mode>, i: nat)
    requires ToolsShapes(tools) && Rectangular(ds) && mode.Err?
    ensures PlainFrom(ds, tools, feats, mode, i).video == []
    decreases |feats| - i
  {
    if i < |feats| {
      InvalidModeWritesNothing(ds, tools, feats, mode, i + 1);
    }
  }

  /** The outcomes the improved script gives frames `i..|feats|-1` when no
    * alarm arrives. */
  function OutcomesFrom(ds: Dataset, tools: Tools, feats: seq<FW.Row>, mode: Mode, i: nat): (os: seq<FrameOutcome>)
    requires ToolsShapes(tools) && Rectangular(ds)
    ensures |os| == if i <= |feats| then |feats| - i else 0
    decreases |feats| - i
  {
    if i >= |feats| then []
    else [ImprovedFrame(ds, tools, feats, mode, i, FrameImage(ds, i), false)] + OutcomesFrom(ds, tools, feats, mode, i + 1)
  }

  /** inference.py writes at most one frame per feature row, and when it
    * runs to the end it writes exactly the frames the improved script
    * writes for the same inputs. */
  lemma {:induction false} PlainAgreesFrom(ds: Dataset, tools: Tools, feats: seq<FW.Row>, mode: Mode, i: nat)
    requires ToolsShapes(tools) && Rectangular(ds)
    requires i <= |feats|
    ensures |PlainFrom(ds, tools, feats, Ok(mode), i).video| <= |feats| - i
    ensures PlainFrom(ds, tools, feats, Ok(mode), i).crash.None? ==>
      PlainFrom(ds, tools, feats, Ok(mode), i).video == WrittenFrames(OutcomesFrom(ds, tools, feats, mode, i))
    decreases |feats| - i
  {
    if i < |feats| {
      PlainAgreesFrom(ds, tools, feats, mode, i + 1);
      var idx := FrameImage(ds, i);
      var o := ImprovedFrame(ds, tools, feats, mode, i, idx, false);
      if PlainFrame(ds, tools, feats, Ok(mode), i, idx).Ok? {
        PlainFrameAgrees(ds, tools, feats, mode, i, idx);
        WrittenFramesCons(o, OutcomesFrom(ds, tools, feats, mode, i + 1));
      }
    }
  }

  lemma {:induction false} OutcomesFromIsOutcomes(ds: Dataset, tools: Tools, feats: seq<FW.Row>, mode: Mode, i: nat)
    requires ToolsShapes(tools) && Rectangular(ds) && i <= |feats|
    ensures forall k :: 0 <= k < |feats| - i ==>
      OutcomesFrom(ds, tools, feats, mode, i)[k] == Outcomes(ds, tools, feats, mode, None, |feats|)[i + k]
    decreases |feats| - i
  {
    if i < |feats| {
      OutcomesFromIsOutcomes(ds, tools, feats, mode, i + 1);
      OutcomeAt(ds, tools, feats, mode, None, |feats|, i);
    }
  }

  /** A run of inference.py that does not crash writes the same video as
    * inference_improved.py with the same inputs and no timeout. */
  lemma PlainAgreesWithImproved(ds: Dataset, tools: Tools, feats: seq<FW.Row>, asr: string, writerOpens: bool)
    requires ToolsShapes(tools) && Rectangular(ds)
    requires PlainInference(ds, tools, feats, asr).crash.None?
    requires ParseMode(asr).Ok? && writerOpens
    ensures PlainInference(ds, tools, feats, asr).video == ImprovedMain(ds, tools, feats, asr, writerOpens, None, None).video
  {
    var mode := ParseMode(asr).value;
    PlainAgreesFrom(ds, tools, feats, mode, 0);
    OutcomesFromIsOutcomes(ds, tools, feats, mode, 0);
    assert OutcomesFrom(ds, tools, feats, mode, 0) == Outcomes(ds, tools, feats, mode, None, |feats|);
  }

  /** A frame inference.py survives is written by it exactly when the
    * improved script writes it, with the same pixels. */
  lemma PlainFrameAgrees(ds: Dataset, tools: Tools, feats: seq<FW.Row>, mode: Mode, i: nat, idx: int)
    requires ToolsShapes(tools) && Rectangular(ds)
    requires PlainFrame(ds, tools, feats, Ok(mode), i, idx).Ok?
    ensures var o := ImprovedFrame(ds, tools, feats, mode, i, idx, false);
      var f := PlainFrame(ds, tools, feats, Ok(mode), i, idx).value;
      (f.Some? <==> o.Written?) && (f.Some? ==> f.value == o.frame)
  {
    ParseLinesCount(ds.landmarks[idx], tools.parse);
  }

  lemma {:induction false} WrittenFramesCons(o: FrameOutcome, os: seq<FrameOutcome>)
    ensures WrittenFrames([o] + os) == (if o.Written? then [o.frame] else []) + WrittenFrames(os)
    decreases |os|
  {
    if os != [] {
      var all := [o] + os;
      assert all[..|all| - 1] == [o] + os[..|os| - 1];
      WrittenFramesCons(o, os[..|os| - 1]);
    } else {
      assert ([o] + os)[..0] == [];
    }
  }
}
