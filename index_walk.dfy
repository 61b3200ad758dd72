// How the inference scripts choose the reference image for each audio
// frame: the ping-pong walk of inference.py, the triangle walk over an action
// range in the generated scripts, the frame -> sentence -> range lookup of the
// batch script, and the simple sequence of the enhanced generator.

module IndexWalk {
  import opened Wrappers

  function Min(a: int, b: int): int { if a <= b then a else b }
  function Max(a: int, b: int): int { if a >= b then a else b }

  /** `max(0, min(v, hi))`, the final clamp of every generated script. */
  function Clamp(v: int, hi: int): (r: int)
    ensures hi >= 0 ==> 0 <= r <= hi
    ensures 0 <= v <= hi ==> r == v
  {
    Max(0, Min(v, hi))
  }

  // ---------------------------------------------------------------------
  // inference.py: img_idx / step_stride

  datatype WalkState = WalkState(idx: int, stride: int)

  /** One frame of inference.py's walk: turn round at either end, then move. */
  function PingPongStep(lenImg: int, s: WalkState): WalkState {
    var stride1 := if s.idx > lenImg - 1 then -1 else s.stride;
    var stride2 := if s.idx < 1 then 1 else stride1;
    WalkState(s.idx + stride2, stride2)
  }

  /** The walk after `k` frames, from `img_idx = 0`, `step_stride = 0`; frame
    * `i` reads image `PingPongAfter(lenImg, i + 1).idx`. */
  function PingPongAfter(lenImg: int, k: nat): WalkState {
    if k == 0 then WalkState(0, 0) else PingPongStep(lenImg, PingPongAfter(lenImg, k - 1))
  }

  /** The first frame reads image 1, whatever the pool size. */
  lemma PingPongFirst(lenImg: int)
    ensures PingPongAfter(lenImg, 1).idx == 1
  {
  }

  /** After the first frame the stride is always +1 or -1. */
  lemma {:induction false} PingPongStride(lenImg: int, k: nat)
    requires k >= 1
    ensures PingPongAfter(lenImg, k).stride in {-1, 1}
  {
    if k > 1 { PingPongStride(lenImg, k - 1); }
  }

  /** Successive frames read images whose numbers differ by exactly one. */
  lemma PingPongMovesByOne(lenImg: int, k: nat)
    ensures PingPongAfter(lenImg, k + 1).idx - PingPongAfter(lenImg, k).idx in {-1, 1}
  {
    if k >= 1 { PingPongStride(lenImg, k); }
  }

  /** With `len_img >= 1` (at least two images) every frame reads an image of
    * the pool `[0, len_img]`. */
  lemma {:induction false} PingPongInPool(lenImg: int, k: nat)
    requires lenImg >= 1 && k >= 1
    ensures 0 <= PingPongAfter(lenImg, k).idx <= lenImg
    ensures PingPongAfter(lenImg, k).stride in {-1, 1}
  {
    if k > 1 { PingPongInPool(lenImg, k - 1); }
  }

  /** With a single image (`len_img == 0`) the walk alternates 1, 0, 1, 0, ...
    * so every other frame asks for image 1, which is outside the pool. */
  lemma {:induction false} PingPongSingleImage(k: nat)
    ensures PingPongAfter(0, k).idx == k % 2
    ensures k >= 1 ==> PingPongAfter(0, k).stride == (if k % 2 == 1 then 1 else -1)
  {
    if k > 0 { PingPongSingleImage(k - 1); }
  }

  // ---------------------------------------------------------------------
  // the generated scripts: triangle walk over [start, end]

  /** The image index for frame `i` inside the action range `[start, end]`:
    * up from `start` to `end` and back down, period `2 * size - 2`. */
  function RangeWalk(start: int, end: int, i: int): int {
    var size := end - start + 1;
    if size > 1 then
      var c := i % (size * 2 - 2);
      if c < size then start + c else start + (size * 2 - 2 - c)
    else start
  }

  /** The generated scripts of agent/dh_generator.py and
    * digital_human_paragraph_generator.py: the walk clamped to `[0, 1177]`. */
  function ScriptImageIndex(start: int, end: int, i: nat): (r: int)
    ensures 0 <= r <= 1177
    ensures 0 <= start <= end <= 1177 ==> start <= r <= end
  {
    RangeWalkBounds(start, end, i);
    Clamp(RangeWalk(start, end, i), 1177)
  }

  lemma RangeWalkBounds(start: int, end: int, i: nat)
    ensures start <= end ==> start <= RangeWalk(start, end, i) <= end
    ensures end < start ==> RangeWalk(start, end, i) == start
  {
  }

  /** The walk repeats with period `2 * size - 2`. */
  lemma RangeWalkPeriod(start: int, end: int, i: nat)
    requires end > start
    ensures RangeWalk(start, end, i + (end - start + 1) * 2 - 2) == RangeWalk(start, end, i)
  {
    var p := (end - start + 1) * 2 - 2;
    ModShift(i, p);
  }

  /** Frame to frame the walk moves by exactly one image. */
  lemma RangeWalkStep(start: int, end: int, i: nat)
    requires end > start
    ensures RangeWalk(start, end, i + 1) - RangeWalk(start, end, i) in {-1, 1}
  {
    var p := (end - start + 1) * 2 - 2;
    ModSucc(i, p);
  }

  /** Within each period the walk is at `end` exactly once, at offset `size - 1`. */
  lemma RangeWalkAtEnd(start: int, end: int, i: nat)
    requires end > start
    ensures RangeWalk(start, end, i) == end <==> i % ((end - start + 1) * 2 - 2) == end - start
  {
  }

  lemma {:induction false} MulAtLeast(a: int, p: int)
    requires a >= 1 && p > 0
    ensures a * p >= p
    decreases a
  {
    if a > 1 {
      MulAtLeast(a - 1, p);
      assert a * p == (a - 1) * p + p;
    }
  }

  /** Quotient and remainder are unique. */
  lemma DivModUnique(n: int, p: int, q: int, r: int)
    requires p > 0 && 0 <= r < p && n == q * p + r
    ensures n / p == q && n % p == r
  {
    var q', r' := n / p, n % p;
    assert n == q' * p + r' && 0 <= r' < p;
    if q' > q {
      MulAtLeast(q' - q, p);
    } else if q' < q {
      MulAtLeast(q - q', p);
    }
  }

  lemma ModShift(i: int, p: int)
    requires p > 0
    ensures (i + p) % p == i % p
  {
    DivModUnique(i + p, p, i / p + 1, i % p);
  }

  lemma ModSucc(i: int, p: int)
    requires p > 0
    ensures (i + 1) % p == if i % p + 1 < p then i % p + 1 else 0
  {
    if i % p + 1 < p {
      DivModUnique(i + 1, p, i / p, i % p + 1);
    } else {
      DivModUnique(i + 1, p, i / p + 1, 0);
    }
  }

  // ---------------------------------------------------------------------
  // digital_human_batch_generator.py: frame -> sentence -> range

  function Sum(xs: seq<int>): int {
    if xs == [] then 0 else Sum(xs[..|xs| - 1]) + xs[|xs| - 1]
  }

  /** The first sentence whose cumulative frame window contains frame `i`,
    * with the offset of `i` inside it; `None` when `i` lies past them all. */
  function FirstWindow(frames: seq<int>, i: int): Option<(nat, int)>
    decreases |frames|
  {
    if frames == [] then None
    else if i < frames[0] then Some((0, i))
    else match FirstWindow(frames[1..], i - frames[0])
      case None => None
      case Some(p) => Some((p.0 + 1, p.1))
  }

  function ShiftWindow(w: Option<(nat, int)>, shift: nat): Option<(nat, int)> {
    match w
    case None => None
    case Some(p) => Some((p.0 + shift, p.1))
  }

  /** The sentence and in-sentence offset the generated script settles on:
    * the first window holding frame `i`, or sentence 0 with the offset past
    * the last window when there is none. */
  function Locate(frames: seq<int>, i: int): (int, int) {
    match FirstWindow(frames, i)
    case Some(p) => (p.0 as int, p.1)
    case None => (0, i - Sum(frames))
  }

  /** The generated lookup loop: `frame_in_sentence -= frames` until a window holds it. */
  method LocateSentence(frames: seq<int>, i: nat) returns (currentSentence: int, frameInSentence: int)
    ensures (currentSentence, frameInSentence) == Locate(frames, i)
  {
    currentSentence := 0;
    frameInSentence := i;
    var idx := 0;
    while idx < |frames|
      invariant 0 <= idx <= |frames|
      invariant frameInSentence == i - Sum(frames[..idx])
      invariant FirstWindow(frames, i) == ShiftWindow(FirstWindow(frames[idx..], frameInSentence), idx)
    {
      if frameInSentence < frames[idx] {
        currentSentence := idx;
        return;
      }
      assert frames[..idx + 1][..idx] == frames[..idx];
      frameInSentence := frameInSentence - frames[idx];
      assert frames[idx..][1..] == frames[idx + 1..];
      idx := idx + 1;
    }
    assert frames[..idx] == frames;
  }

  /** What the generated batch script computes for frame `i`: the located
    * sentence, capped at the last range, then the triangle walk inside that
    * range and the clamp to `[0, len_img]`. An empty range list makes the cap
    * -1 and the script fails on `action_ranges[-1]`. */
  function BatchImageIndexSpec(ranges: seq<(int, int)>, frames: seq<int>, i: nat, lenImg: int): Result<int> {
    var (sentence, offset) := Locate(frames, i);
    var current := Min(sentence, |ranges| - 1);
    if current < 0 then Err(IndexError)
    else Ok(Clamp(RangeWalk(ranges[current].0, ranges[current].1, offset), lenImg))
  }

  /** The generated per-frame image choice of the batch script. */
  method BatchImageIndex(ranges: seq<(int, int)>, frames: seq<int>, i: nat, lenImg: int)
    returns (r: Result<int>)
    ensures r == BatchImageIndexSpec(ranges, frames, i, lenImg)
  {
    var currentSentence, frameInSentence := LocateSentence(frames, i);
    currentSentence := Min(currentSentence, |ranges| - 1);
    if currentSentence < |ranges| {
      if currentSentence < 0 {
        // `action_ranges[-1]` on an empty list
        return Err(IndexError);
      }
      var (startImg, endImg) := ranges[currentSentence];
      var rangeSize := endImg - startImg + 1;
      var imgIdx;
      if rangeSize <= 1 {
        imgIdx := startImg;
      } else {
        var cyclePos := frameInSentence % (rangeSize * 2 - 2);
        if cyclePos < rangeSize {
          imgIdx := startImg + cyclePos;
        } else {
          imgIdx := startImg + (rangeSize * 2 - 2 - cyclePos);
        }
      }
      r := Ok(Max(0, Min(imgIdx, lenImg)));
    } else {
      r := Ok(Max(0, Min(0, lenImg)));
    }
  }

  /** The located sentence is the first whose window holds frame `i`: `i`
    * lies before the end of window `k` and at or past the end of every
    * earlier one, and the offset is `i` minus the frames of the earlier
    * sentences; with no such window `i` is past the end of all of them. */
  lemma {:induction false} FirstWindowIsFirst(frames: seq<int>, i: int)
    ensures match FirstWindow(frames, i)
      case Some(p) =>
        p.0 < |frames| && p.1 == i - Sum(frames[..p.0]) && i < Sum(frames[..p.0 + 1])
        && forall k :: 1 <= k <= p.0 ==> i >= Sum(frames[..k])
      case None => forall k :: 1 <= k <= |frames| ==> i >= Sum(frames[..k])
    decreases |frames|
  {
    if frames != [] {
      var f0 := frames[0];
      assert frames[..1] == [f0];
      assert Sum(frames[..1]) == Sum(frames[..1][..0]) + f0;
      if i >= f0 {
        var tail := frames[1..];
        FirstWindowIsFirst(tail, i - f0);
        forall k | 1 <= k <= |frames| ensures Sum(frames[..k]) == f0 + Sum(tail[..k - 1]) {
          SumConsPrefix(frames, k);
        }
      }
    }
  }

  lemma {:induction false} SumConsPrefix(frames: seq<int>, k: nat)
    requires 1 <= k <= |frames|
    ensures Sum(frames[..k]) == frames[0] + Sum(frames[1..][..k - 1])
    decreases k
  {
    if k > 1 {
      assert frames[..k][..k - 1] == frames[..k - 1];
      assert frames[1..][..k - 1][..k - 2] == frames[1..][..k - 2];
      SumConsPrefix(frames, k - 1);
    } else {
      assert frames[..1] == [frames[0]];
      assert Sum(frames[..1]) == Sum(frames[..1][..0]) + frames[0];
    }
  }

  // ---------------------------------------------------------------------
  // enhanced_digital_human_generator.py: _get_simple_sequence

  /** One step of the simple sequence: turn round at `total - 1` or at 0,
    * emit the current index, then move. */
  function SimpleStep(total: int, s: WalkState): WalkState {
    var stride1 := if s.idx >= total - 1 then -1 else s.stride;
    var stride2 := if s.idx <= 0 then 1 else stride1;
    WalkState(s.idx + stride2, stride2)
  }

  /** The state before emitting element `k`, from `img_idx = 0`, `step_stride = 1`. */
  function SimpleBefore(total: int, k: nat): WalkState {
    if k == 0 then WalkState(0, 1) else SimpleStep(total, SimpleBefore(total, k - 1))
  }

  method SimpleSequence(total: int, audioLength: nat) returns (sequence: seq<int>)
    ensures |sequence| == audioLength
    ensures forall k :: 0 <= k < audioLength ==> sequence[k] == SimpleBefore(total, k).idx
  {
    sequence := [];
    var imgIdx := 0;
    var stepStride := 1;
    for i := 0 to audioLength
      invariant |sequence| == i
      invariant WalkState(imgIdx, stepStride) == SimpleBefore(total, i)
      invariant forall k :: 0 <= k < i ==> sequence[k] == SimpleBefore(total, k).idx
    {
      if imgIdx >= total - 1 {
        stepStride := -1;
      }
      if imgIdx <= 0 {
        stepStride := 1;
      }
      sequence := sequence + [imgIdx];
      imgIdx := imgIdx + stepStride;
      assert WalkState(imgIdx, stepStride) == SimpleStep(total, SimpleBefore(total, i));
    }
  }

  /** With at least two images the simple sequence starts at 0, stays in
    * `[0, total - 1]` and moves by exactly one each step. */
  lemma {:induction false} SimpleInRange(total: int, k: nat)
    requires total >= 2
    ensures 0 <= SimpleBefore(total, k).idx <= total - 1
    ensures SimpleBefore(total, k).stride in {-1, 1}
    ensures SimpleBefore(total, k + 1).idx - SimpleBefore(total, k).idx in {-1, 1}
  {
    if k > 0 { SimpleInRange(total, k - 1); }
  }

  /** With one image the second element is already 1, outside the pool. */
  lemma SimpleSingleImage()
    ensures SimpleBefore(1, 0).idx == 0 && SimpleBefore(1, 1).idx == 1
  {
  }
}
