// The training dataset of datasetsss.py: its length, the target/reference
// face preparation of `process_img`, and the retrying `__getitem__`.

module TrainingData {
  import opened Wrappers
  import opened Landmarks
  import opened FaceBox
  import opened PasteBack
  import FW = FeatureWindow
  import IL = InferenceLoop

  /** `__len__`: the smaller of the feature row count and the number of
    * image paths (one per entry of `full_body_img/`). */
  function Len(featureRows: nat, imageCount: nat): (n: nat)
    ensures n <= featureRows && n <= imageCount
    ensures n == featureRows || n == imageCount
  {
    if featureRows < imageCount then featureRows else imageCount
  }

  /** The 168x168 crop of one face, or the `ValueError` that `process_img`
    * raises for it. A landmark token that is not a number also raises, and
    * a missing landmark file raises `FileNotFoundError` from `open`. */
  function FaceCrop(img: Option<Grid>, lines: Option<seq<string>>, parse: CoordParser, resize: Resizer): (r: Result<Grid>)
    requires ResizerShapes(resize)
    requires img.Some? ==> IsImage(img.value, |img.value|, Width(img.value))
    ensures r.Ok? ==> IsImage(r.value, CropSide, CropSide)
  {
    if img.None? then Err(ValueError("Image is None"))
    else if lines.None? then Err(FileNotFoundError("lms_path"))
    else
      match ParseLines(lines.value, parse, false)
      case Err(e) => Err(e)
      case Ok(pts) =>
        if |pts| < 10 then Err(ValueError("Insufficient landmarks"))
        else
          match CropBox(pts, Width(img.value), |img.value|)
          case None => Err(ValueError("Invalid crop dimensions"))
          case Some(b) => Ok(resize(SubGrid(img.value, b.ymin, b.xmin, b.ymax - b.ymin, b.xmax - b.xmin), CropSide, CropSide))
  }

  /** The images `process_img` returns: the 6-channel input is the
    * reference face followed by the masked target face; the second output
    * is the target face before masking. */
  datatype Faces = Faces(reference: Grid, masked: Grid, target: Grid)

  /** `process_img(img, lms_path, img_ex, lms_path_ex)`: the target is
    * checked first, then the reference, each against its own image size. */
  function ProcessImg(img: Option<Grid>, lines: Option<seq<string>>, imgEx: Option<Grid>, linesEx: Option<seq<string>>,
                      parse: CoordParser, resize: Resizer): (r: Result<Faces>)
    requires ResizerShapes(resize)
    requires img.Some? ==> IsImage(img.value, |img.value|, Width(img.value))
    requires imgEx.Some? ==> IsImage(imgEx.value, |imgEx.value|, Width(imgEx.value))
    ensures r.Ok? ==> (IsImage(r.value.reference, InnerSide, InnerSide) && IsImage(r.value.target, InnerSide, InnerSide)
                       && r.value.masked == MaskMouth(r.value.target))
    ensures r.Ok? <==> FaceCrop(img, lines, parse, resize).Ok? && FaceCrop(imgEx, linesEx, parse, resize).Ok?
  {
    match FaceCrop(img, lines, parse, resize)
    case Err(e) => Err(e)
    case Ok(crop) =>
      match FaceCrop(imgEx, linesEx, parse, resize)
      case Err(e) => Err(e)
      case Ok(cropEx) =>
        var real_ := InnerFace(crop);
        Ok(Faces(InnerFace(cropEx), MaskMouth(real_), real_))
  }

  /** A sample as the data loader sees it: three tensors and, for the audio,
    * the shape it was reshaped to. */
  datatype Sample =
    | Real(faces: Faces, audio: seq<FW.Row>, audioShape: seq<nat>)
    | Dummy(audioShape: seq<nat>)

  function AudioShape(mode: IL.Mode): seq<nat> {
    match mode
    case Hubert => [16, 32, 32]
    case Wenet => [128, 16, 32]
  }

  function Product(s: seq<nat>): nat {
    if s == [] then 1 else s[0] * Product(s[1..])
  }

  /** The zero sample returned after the last retry, as written: the hubert
    * audio is `zeros(32, 32, 32)`. */
  function DummySample(mode: IL.Mode): (s: Sample)
    ensures s.Dummy? && |s.audioShape| == |AudioShape(mode)|
    ensures s.audioShape[1..] == AudioShape(mode)[1..]
  {
    match mode
    case Wenet => Dummy([128, 16, 32])
    case Hubert => Dummy([32, 32, 32])
  }

  /** The zero sample with the audio shape of a real sample. */
  function DummySampleFixed(mode: IL.Mode): (s: Sample)
    ensures s.audioShape == AudioShape(mode)
  {
    Dummy(AudioShape(mode))
  }

  /** The hubert zero sample has twice as many audio values as a real one,
    * so it cannot be batched with real samples. */
  lemma DummyShapeMismatch()
    ensures DummySample(IL.Hubert).audioShape != AudioShape(IL.Hubert)
    ensures Product(DummySample(IL.Hubert).audioShape) == 2 * Product(AudioShape(IL.Hubert))
    ensures DummySample(IL.Wenet).audioShape == AudioShape(IL.Wenet)
  {
  }

  /** One attempt of `__getitem__` at `(idx + retry) % len` with reference
    * image `ex`. */
  function Attempt(ds: IL.Dataset, feats: seq<FW.Row>, mode: IL.Mode, parse: CoordParser, resize: Resizer,
                   current: nat, ex: nat): (r: Result<Sample>)
    requires ResizerShapes(resize) && IL.Rectangular(ds)
    ensures r.Ok? ==> (r.value.Real? && r.value.audio == FW.GetAudioFeatures(feats, current)
                       && r.value.audioShape == AudioShape(mode))
  {
    var img := if current in ds.images then ds.images[current] else None;
    var lines := if current in ds.landmarks then Some(ds.landmarks[current]) else None;
    var imgEx := if ex in ds.images then ds.images[ex] else None;
    var linesEx := if ex in ds.landmarks then Some(ds.landmarks[ex]) else None;
    match ProcessImg(img, lines, imgEx, linesEx, parse, resize)
    case Err(e) => Err(e)
    case Ok(faces) =>
      var audio := FW.GetAudioFeatures(feats, current);
      if IL.ElementCount(audio) != Product(AudioShape(mode)) then Err(RuntimeError("reshape"))
      else Ok(Real(faces, audio, AudioShape(mode)))
  }

  const MaxRetries := 10

  /** The ten attempts `__getitem__(idx)` can make. `refs[r]` is the value
    * drawn by `random.randint(0, len - 1)` at attempt `r`. */
  function Attempts(ds: IL.Dataset, feats: seq<FW.Row>, mode: IL.Mode, parse: CoordParser, resize: Resizer,
                    idx: nat, refs: seq<nat>): (rs: seq<Result<Sample>>)
    requires ResizerShapes(resize) && IL.Rectangular(ds)
    requires Len(|feats|, ds.dirEntries) > 0 && |refs| == MaxRetries
    ensures |rs| == MaxRetries
    ensures var n := Len(|feats|, ds.dirEntries);
      forall r :: 0 <= r < MaxRetries ==> rs[r] == Attempt(ds, feats, mode, parse, resize, (idx + r) % n, refs[r] % n)
  {
    var n := Len(|feats|, ds.dirEntries);
    seq(MaxRetries, r requires 0 <= r < MaxRetries => Attempt(ds, feats, mode, parse, resize, (idx + r) % n, refs[r] % n))
  }

  /** The first successful attempt from `retry` on, else the zero sample. */
  function FirstOk(rs: seq<Result<Sample>>, retry: nat, dummy: Sample): Sample
    decreases |rs| - retry
  {
    if retry >= |rs| then dummy
    else if rs[retry].Ok? then rs[retry].value
    else FirstOk(rs, retry + 1, dummy)
  }

  /** `__getitem__(idx)`, with the zero sample as written. */
  function GetItemSpec(ds: IL.Dataset, feats: seq<FW.Row>, mode: IL.Mode, parse: CoordParser, resize: Resizer,
                       idx: nat, refs: seq<nat>): (s: Sample)
    requires ResizerShapes(resize) && IL.Rectangular(ds)
    requires Len(|feats|, ds.dirEntries) > 0 && |refs| == MaxRetries
    ensures s.Real? ==> s.audioShape == AudioShape(mode)
    ensures s.Dummy? ==> s == DummySample(mode)
  {
    FirstOkReal(Attempts(ds, feats, mode, parse, resize, idx, refs), 0, DummySample(mode), AudioShape(mode));
    FirstOk(Attempts(ds, feats, mode, parse, resize, idx, refs), 0, DummySample(mode))
  }

  /** The retry loop of `__getitem__`. */
  method GetItem(ds: IL.Dataset, feats: seq<FW.Row>, mode: IL.Mode, parse: CoordParser, resize: Resizer,
                 idx: nat, refs: seq<nat>) returns (s: Sample)
    requires ResizerShapes(resize) && IL.Rectangular(ds)
    requires Len(|feats|, ds.dirEntries) > 0 && |refs| == MaxRetries
    ensures s == GetItemSpec(ds, feats, mode, parse, resize, idx, refs)
  {
    var n := Len(|feats|, ds.dirEntries);
    ghost var rs := Attempts(ds, feats, mode, parse, resize, idx, refs);
    for retry := 0 to MaxRetries
      invariant FirstOk(rs, 0, DummySample(mode)) == FirstOk(rs, retry, DummySample(mode))
    {
      var currentIdx := (idx + retry) % n;
      var exInt := refs[retry] % n;
      var r := Attempt(ds, feats, mode, parse, resize, currentIdx, exInt);
      assert r == rs[retry];
      if r.Ok? {
        return r.value;
      }
    }
    s := DummySample(mode);
  }

  /** A result other than the zero sample is the first successful attempt
    * from `retry` on: all attempts before it failed. */
  lemma {:induction false} FirstOkIsFirst(rs: seq<Result<Sample>>, retry: nat, dummy: Sample) returns (r: nat)
    requires retry <= |rs| && FirstOk(rs, retry, dummy) != dummy
    ensures retry <= r < |rs| && rs[r] == Ok(FirstOk(rs, retry, dummy))
    ensures forall q :: retry <= q < r ==> rs[q].Err?
    decreases |rs| - retry
  {
    if rs[retry].Ok? {
      r := retry;
    } else {
      r := FirstOkIsFirst(rs, retry + 1, dummy);
    }
  }

  /** When every attempt fails the result is the zero sample. */
  lemma {:induction false} AllFailedGivesDummy(rs: seq<Result<Sample>>, retry: nat, dummy: Sample)
    requires forall q :: retry <= q < |rs| ==> rs[q].Err?
    ensures FirstOk(rs, retry, dummy) == dummy
    decreases |rs| - retry
  {
    if retry < |rs| {
      AllFailedGivesDummy(rs, retry + 1, dummy);
    }
  }

  /** The result is either the dummy or some successful attempt. */
  lemma {:induction false} FirstOkShapes(rs: seq<Result<Sample>>, retry: nat, dummy: Sample, shape: seq<nat>)
    requires forall q :: 0 <= q < |rs| && rs[q].Ok? ==> rs[q].value.audioShape == shape
    requires dummy.audioShape == shape
    ensures FirstOk(rs, retry, dummy).audioShape == shape
    decreases |rs| - retry
  {
    if retry < |rs| && rs[retry].Err? {
      FirstOkShapes(rs, retry + 1, dummy, shape);
    }
  }

  /** With real successes of one shape and a zero fallback, the result is
    * a real sample of that shape or the fallback itself. */
  lemma {:induction false} FirstOkReal(rs: seq<Result<Sample>>, retry: nat, dummy: Sample, shape: seq<nat>)
    requires forall q :: 0 <= q < |rs| && rs[q].Ok? ==> rs[q].value.Real? && rs[q].value.audioShape == shape
    requires dummy.Dummy?
    ensures FirstOk(rs, retry, dummy).Real? ==> FirstOk(rs, retry, dummy).audioShape == shape
    ensures FirstOk(rs, retry, dummy).Dummy? ==> FirstOk(rs, retry, dummy) == dummy
    decreases |rs| - retry
  {
    if retry < |rs| && rs[retry].Err? {
      FirstOkReal(rs, retry + 1, dummy, shape);
    }
  }

  /** A real sample of `__getitem__(idx)` comes from the first attempt `r`
    * that succeeds, and its audio window is taken at `(idx + r) % len`. */
  lemma GetItemRealSample(ds: IL.Dataset, feats: seq<FW.Row>, mode: IL.Mode, parse: CoordParser, resize: Resizer,
                          idx: nat, refs: seq<nat>) returns (r: nat)
    requires ResizerShapes(resize) && IL.Rectangular(ds)
    requires Len(|feats|, ds.dirEntries) > 0 && |refs| == MaxRetries
    requires GetItemSpec(ds, feats, mode, parse, resize, idx, refs).Real?
    ensures r < MaxRetries
    ensures GetItemSpec(ds, feats, mode, parse, resize, idx, refs).audio
      == FW.GetAudioFeatures(feats, (idx + r) % Len(|feats|, ds.dirEntries))
    ensures forall q :: 0 <= q < r ==> Attempts(ds, feats, mode, parse, resize, idx, refs)[q].Err?
  {
    var rs := Attempts(ds, feats, mode, parse, resize, idx, refs);
    r := FirstOkIsFirst(rs, 0, DummySample(mode));
  }

  /** As written, a hubert sample whose ten attempts all fail has an audio
    * tensor of a different shape from every real hubert sample. */
  lemma HubertDummyDiffers(ds: IL.Dataset, feats: seq<FW.Row>, parse: CoordParser, resize: Resizer,
                           idx: nat, refs: seq<nat>)
    requires ResizerShapes(resize) && IL.Rectangular(ds)
    requires Len(|feats|, ds.dirEntries) > 0 && |refs| == MaxRetries
    requires forall q :: 0 <= q < MaxRetries ==> Attempts(ds, feats, IL.Hubert, parse, resize, idx, refs)[q].Err?
    ensures GetItemSpec(ds, feats, IL.Hubert, parse, resize, idx, refs).audioShape != AudioShape(IL.Hubert)
  {
    AllFailedGivesDummy(Attempts(ds, feats, IL.Hubert, parse, resize, idx, refs), 0, DummySample(IL.Hubert));
  }

  /** With the corrected zero sample every sample `__getitem__` returns has
    * the audio shape of its mode. */
  lemma FixedDummyShapes(ds: IL.Dataset, feats: seq<FW.Row>, mode: IL.Mode, parse: CoordParser, resize: Resizer,
                         idx: nat, refs: seq<nat>)
    requires ResizerShapes(resize) && IL.Rectangular(ds)
    requires Len(|feats|, ds.dirEntries) > 0 && |refs| == MaxRetries
    ensures FirstOk(Attempts(ds, feats, mode, parse, resize, idx, refs), 0, DummySampleFixed(mode)).audioShape
      == AudioShape(mode)
  {
    FirstOkShapes(Attempts(ds, feats, mode, parse, resize, idx, refs), 0, DummySampleFixed(mode), AudioShape(mode));
  }
}
