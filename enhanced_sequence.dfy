// `get_action_sequence` of the enhanced generator: the text's category picks
// a range, random-length segments of image indices fill the audio length,
// and after each segment the category may switch to a different one.

module EnhancedSequence {
  import opened Wrappers
  import opened ActionClassifier
  import IndexWalk

  /** The action-variety fields of the generator's configuration. The
    * change probability enters through `Draws.switchNow`. */
  datatype Config = Config(variety: bool, minDuration: int, maxDuration: int)

  /** The configuration defaults: variety on, durations from 3 to 8 frames. */
  const DefaultConfig := Config(true, 3, 8)

  /** The random draws, indexed by segment: `rangePick(s)` for the range
    * `random.choice`, `durationPick(s)` for `random.randint`, `between(s, i)`
    * for the eased value at position `i` of a smooth segment,
    * `switchNow(s)` for `random.random() < action_change_probability`, and
    * `otherPick(s)` for the `random.choice` among the other categories;
    * `classPick` is the fallback draw of the classifier. */
  datatype Draws = Draws(
    classPick: nat,
    rangePick: nat -> nat,
    durationPick: nat -> nat,
    between: (nat, int) -> int,
    switchNow: nat -> bool,
    otherPick: nat -> nat)

  /** `random.randint(lo, hi)` with draw `pick`. */
  function RandInt(lo: int, hi: int, pick: nat): (r: int)
    requires lo <= hi
    ensures lo <= r <= hi
  {
    lo + pick % (hi - lo + 1)
  }

  /** `[k for k in keys if k != cur]`, in key order. */
  function Without(cs: seq<Category>, cur: Category): (r: seq<Category>)
    ensures forall c :: c in r <==> c in cs && c != cur
    ensures |r| <= |cs|
  {
    if cs == [] then []
    else (if cs[0] == cur then [] else [cs[0]]) + Without(cs[1..], cur)
  }

  /** The other categories: four of them, none equal to the current one. */
  function Others(cur: Category): (os: seq<Category>)
    ensures |os| == 4 && cur !in os
    ensures forall c :: c != cur ==> c in os
  {
    OthersCount(cur);
    AllCategories();
    Without(Categories, cur)
  }

  lemma OthersCount(cur: Category)
    ensures |Without(Categories, cur)| == 4
  {
    WithoutCount(Categories, cur);
    assert multiset(Categories)[cur] == 1 by {
      assert Categories == [Greeting, Pointing, Excited, Explaining, Urging];
    }
  }

  /** Leaving a category out drops each of its occurrences and nothing else. */
  lemma {:induction false} WithoutCount(cs: seq<Category>, cur: Category)
    ensures |Without(cs, cur)| == |cs| - multiset(cs)[cur]
  {
    if cs != [] {
      assert cs == [cs[0]] + cs[1..];
      WithoutCount(cs[1..], cur);
    }
  }

  /** The category after a switch is never the current one. */
  lemma SwitchChangesCategory(cur: Category, pick: nat)
    ensures Others(cur)[pick % 4] != cur
  {
  }

  /** `_generate_smooth_sequence`: one element when `duration <= 1`,
    * otherwise `duration` eased values, each clamped to
    * `[0, total_images - 1]`. Progress 0 gives exactly `start` and progress 1
    * exactly `end`; the values between depend on floating point and are
    * `between(i)`. */
  function Smooth(start: int, end: int, duration: int, total: int, d: Draws, s: nat): (seg: seq<int>)
    ensures |seg| == if duration <= 1 then 1 else duration
    ensures duration > 1 && total >= 1 ==> forall k :: 0 <= k < |seg| ==> 0 <= seg[k] < total
    ensures duration > 1 && 0 <= start < total ==> seg[0] == start
    ensures duration > 1 && 0 <= end < total ==> seg[|seg| - 1] == end
  {
    if duration <= 1 then [start]
    else
      var seg := seq(duration, i requires 0 <= i < duration =>
        IndexWalk.Clamp(if i == 0 then start else if i == duration - 1 then end else d.between(s, i), total - 1));
      assert seg[0] == IndexWalk.Clamp(start, total - 1);
      assert seg[duration - 1] == IndexWalk.Clamp(end, total - 1);
      assert total >= 1 ==> forall k :: 0 <= k < |seg| ==> 0 <= seg[k] < total by {
        forall k | 0 <= k < |seg| && total >= 1
          ensures 0 <= seg[k] < total
        {
          var v := if k == 0 then start else if k == duration - 1 then end else d.between(s, k);
          assert seg[k] == IndexWalk.Clamp(v, total - 1);
        }
      }
      seg
  }

  /** The image range segment `s` uses: the drawn range of the category,
    * both ends cut to `total_images - 1`. */
  function SegmentRange(cur: Category, s: nat, total: int, d: Draws): (int, int) {
    var rs := EnhancedRanges(cur);
    ConfiguredRangesBounded(cur);
    var r := rs[d.rangePick(s) % |rs|];
    (IndexWalk.Min(r.0, total - 1), IndexWalk.Min(r.1, total - 1))
  }

  /** The drawn duration of segment `s`, cut to the frames still missing. */
  function Duration(s: nat, room: int, cfg: Config, d: Draws): int
    requires cfg.minDuration <= cfg.maxDuration
  {
    IndexWalk.Min(RandInt(cfg.minDuration, cfg.maxDuration, d.durationPick(s)), room)
  }

  /** Segment `s`: the start image repeated when the range has one image,
    * the smooth sequence otherwise. */
  function Segment(cur: Category, s: nat, room: int, total: int, cfg: Config, d: Draws): (seg: seq<int>)
    requires 1 <= cfg.minDuration <= cfg.maxDuration && room >= 1
    ensures |seg| == Duration(s, room, cfg, d) >= 1
  {
    var (start, end) := SegmentRange(cur, s, total, d);
    var duration := Duration(s, room, cfg, d);
    if start == end then seq(duration, _ => start) else Smooth(start, end, duration, total, d, s)
  }

  /** The category after segment `s` ends at frame `next`. */
  function NextCategory(cur: Category, s: nat, next: int, audioLength: int, d: Draws): Category {
    if next < audioLength && d.switchNow(s) then Others(cur)[d.otherPick(s) % 4] else cur
  }

  /** What the loop does not change: the audio length, the number of images,
    * the configuration and the draws. */
  datatype Env = Env(audioLength: int, total: int, cfg: Config, d: Draws)

  predicate ValidDurations(cfg: Config) { 1 <= cfg.minDuration <= cfg.maxDuration }

  /** The loop variables at the top of a turn: `frame_idx`, the number of
    * segments so far, and `main_action_type`. */
  datatype Turn = Turn(frameIdx: int, s: nat, cur: Category)

  /** The segment a turn emits. */
  function TurnSegment(e: Env, t: Turn): (seg: seq<int>)
    requires ValidDurations(e.cfg) && t.frameIdx < e.audioLength
    ensures |seg| >= 1
  {
    Segment(t.cur, t.s, e.audioLength - t.frameIdx, e.total, e.cfg, e.d)
  }

  /** The loop variables after a turn that emitted `segLen` indices. */
  function AfterTurn(e: Env, t: Turn, segLen: int): Turn {
    var next := t.frameIdx + segLen;
    Turn(next, t.s + 1, NextCategory(t.cur, t.s, next, e.audioLength, e.d))
  }

  /** The indices the `while frame_idx < audio_length` loop emits from turn
    * `t` on. */
  function SegmentsFrom(e: Env, t: Turn): seq<int>
    requires ValidDurations(e.cfg)
    decreases e.audioLength - t.frameIdx
  {
    if t.frameIdx >= e.audioLength then []
    else
      var seg := TurnSegment(e, t);
      seg + SegmentsFrom(e, AfterTurn(e, t, |seg|))
  }

  /** The length fix-up after the loop: truncate, or pad with the last
    * index (0 for an empty sequence). */
  function FitLength(sequence: seq<int>, audioLength: int): (r: seq<int>)
    ensures audioLength >= 0 ==> |r| == audioLength
  {
    if |sequence| > audioLength then (if audioLength >= 0 then sequence[..audioLength] else [])
    else if |sequence| < audioLength then
      var lastImg := if |sequence| > 0 then sequence[|sequence| - 1] else 0;
      sequence + seq(audioLength - |sequence|, _ => lastImg)
    else sequence
  }

  /** `_get_simple_sequence(audio_length)` */
  function SimpleSpec(total: int, audioLength: int): seq<int> {
    if audioLength <= 0 then []
    else seq(audioLength, k requires 0 <= k < audioLength => IndexWalk.SimpleBefore(total, k).idx)
  }

  const EmptyMin := ValueError("min() arg is an empty sequence")
  const EmptyRandRange := ValueError("empty range for randrange()")

  /** `get_action_sequence(text, audio_length)`. With variety on, an audio
    * length of 0 or less leaves the sequence empty and the final `min`
    * raises; `randint` raises when the minimum duration exceeds the maximum. */
  function ActionSequence(text: string, audioLength: int, total: int, cfg: Config, d: Draws): (r: Result<seq<int>>)
    requires cfg.variety ==> cfg.minDuration >= 1
    ensures r.Err? <==> cfg.variety && (audioLength <= 0 || cfg.minDuration > cfg.maxDuration)
    ensures r.Ok? ==> |r.value| == if audioLength > 0 then audioLength else 0
  {
    if !cfg.variety then Ok(SimpleSpec(total, audioLength))
    else if audioLength <= 0 then Err(EmptyMin)
    else if cfg.minDuration > cfg.maxDuration then Err(EmptyRandRange)
    else
      var cat := ClassifyByMax(EnhancedTable, text, d.classPick);
      Ok(FitLength(SegmentsFrom(Env(audioLength, total, cfg, d), Turn(0, 0, cat)), audioLength))
  }

  // ---------------------------------------------------------------------
  // The imperative code

  /** `_generate_smooth_sequence`, appending one value per position. */
  method SmoothSequence(start: int, end: int, duration: int, total: int, d: Draws, s: nat)
    returns (sequence: seq<int>)
    ensures sequence == Smooth(start, end, duration, total, d, s)
  {
    if duration <= 1 {
      return [start];
    }
    ghost var spec := Smooth(start, end, duration, total, d, s);
    sequence := [];
    for i := 0 to duration
      invariant sequence == spec[..i]
    {
      var imgIdx := if i == 0 then start else if i == duration - 1 then end else d.between(s, i);
      imgIdx := IndexWalk.Clamp(imgIdx, total - 1);
      assert spec[i] == imgIdx;
      sequence := sequence + [imgIdx];
      assert sequence == spec[..i + 1];
    }
    assert spec[..duration] == spec;
  }

  /** One segment of the loop body: the repeated start image, or the
    * smooth sequence. */
  method MakeSegment(cur: Category, s: nat, room: int, total: int, cfg: Config, d: Draws)
    returns (segment: seq<int>)
    requires ValidDurations(cfg) && room >= 1
    ensures segment == Segment(cur, s, room, total, cfg, d)
  {
    var (startImg, endImg) := SegmentRange(cur, s, total, d);
    var duration := RandInt(cfg.minDuration, cfg.maxDuration, d.durationPick(s));
    duration := IndexWalk.Min(duration, room);
    if startImg == endImg {
      segment := seq(duration, _ => startImg);
    } else {
      segment := SmoothSequence(startImg, endImg, duration, total, d, s);
    }
  }

  /** The end of a loop turn: with frames still missing and a successful
    * draw, `random.choice` among the other categories. */
  method SwitchAction(cur: Category, s: nat, frameIdx: int, audioLength: int, d: Draws) returns (next: Category)
    ensures next == NextCategory(cur, s, frameIdx, audioLength, d)
  {
    next := cur;
    if frameIdx < audioLength && d.switchNow(s) {
      var otherActions := Others(cur);
      next := otherActions[d.otherPick(s) % |otherActions|];
    }
  }

  /** The body of the loop: emit one segment, then maybe switch category. */
  method OneTurn(e: Env, t: Turn, ghost sequence: seq<int>, ghost target: seq<int>)
    returns (segment: seq<int>, next: Turn)
    requires ValidDurations(e.cfg) && 0 <= t.frameIdx < e.audioLength
    requires sequence + SegmentsFrom(e, t) == target
    ensures segment == TurnSegment(e, t) && next == AfterTurn(e, t, |segment|)
    ensures t.frameIdx < next.frameIdx <= e.audioLength
    ensures (sequence + segment) + SegmentsFrom(e, next) == target
  {
    segment := MakeSegment(t.cur, t.s, e.audioLength - t.frameIdx, e.total, e.cfg, e.d);
    LoopTurn(e, t, sequence, target, segment);
    var frameIdx := t.frameIdx + |segment|;
    var mainActionType := SwitchAction(t.cur, t.s, frameIdx, e.audioLength, e.d);
    next := Turn(frameIdx, t.s + 1, mainActionType);
  }

  /** The `while frame_idx < audio_length` loop: extend by one segment, then
    * maybe switch category. The loop variables `frame_idx`, the segment
    * counter and `main_action_type` travel together as a `Turn`. */
  method SegmentLoop(mainAction: Category, audioLength: int, total: int, cfg: Config, d: Draws)
    returns (sequence: seq<int>)
    requires ValidDurations(cfg)
    ensures sequence == SegmentsFrom(Env(audioLength, total, cfg, d), Turn(0, 0, mainAction))
  {
    var e := Env(audioLength, total, cfg, d);
    var t := Turn(0, 0, mainAction);
    sequence := [];
    ghost var target := SegmentsFrom(e, t);
    assert [] + target == target;
    while t.frameIdx < audioLength
      invariant 0 <= t.frameIdx
      invariant sequence + SegmentsFrom(e, t) == target
      decreases audioLength - t.frameIdx
    {
      var segment;
      segment, t := OneTurn(e, t, sequence, target);
      sequence := sequence + segment;
    }
    assert sequence + [] == sequence;
  }

  /** `get_action_sequence`. The `randint` error is raised in the first turn
    * of the loop in the source; it is checked here before the loop, which
    * has the same outcome since nothing else happens in between. */
  method GetActionSequence(text: string, audioLength: int, total: int, cfg: Config, d: Draws)
    returns (r: Result<seq<int>>)
    requires cfg.variety ==> cfg.minDuration >= 1
    ensures r == ActionSequence(text, audioLength, total, cfg, d)
  {
    if !cfg.variety {
      var simple := IndexWalk.SimpleSequence(total, if audioLength <= 0 then 0 else audioLength);
      assert simple == SimpleSpec(total, audioLength);
      return Ok(simple);
    }
    var mainActionType := AnalyzeSentence(EnhancedTable, text, d.classPick);
    if audioLength <= 0 {
      // the loop does not run and `min(sequence)` raises on the empty list
      return Err(EmptyMin);
    }
    if cfg.minDuration > cfg.maxDuration {
      return Err(EmptyRandRange);
    }
    var sequence := SegmentLoop(mainActionType, audioLength, total, cfg, d);
    if |sequence| > audioLength {
      sequence := sequence[..audioLength];
    } else if |sequence| < audioLength {
      var lastImg := if |sequence| > 0 then sequence[|sequence| - 1] else 0;
      sequence := sequence + seq(audioLength - |sequence|, _ => lastImg);
    }
    r := Ok(sequence);
  }

  // ---------------------------------------------------------------------
  // Properties

  /** The loop invariant survives one turn. */
  lemma LoopTurn(e: Env, t: Turn, sequence: seq<int>, target: seq<int>, segment: seq<int>)
    requires ValidDurations(e.cfg) && t.frameIdx < e.audioLength
    requires segment == TurnSegment(e, t)
    requires sequence + SegmentsFrom(e, t) == target
    ensures (sequence + segment) + SegmentsFrom(e, AfterTurn(e, t, |segment|)) == target
  {
    var rest := SegmentsFrom(e, AfterTurn(e, t, |segment|));
    assert SegmentsFrom(e, t) == segment + rest;
    assert (sequence + segment) + rest == sequence + (segment + rest);
  }

  predicate InPool(xs: seq<int>, total: int) {
    forall i :: 0 <= i < |xs| ==> 0 <= xs[i] <= total - 1
  }

  /** Every segment has exactly its duration, so the loop emits exactly the
    * missing frames. */
  lemma {:induction false} SegmentsLength(e: Env, t: Turn)
    requires ValidDurations(e.cfg) && t.frameIdx <= e.audioLength
    ensures |SegmentsFrom(e, t)| == e.audioLength - t.frameIdx
    decreases e.audioLength - t.frameIdx
  {
    if t.frameIdx < e.audioLength {
      var seg := TurnSegment(e, t);
      SegmentsLength(e, AfterTurn(e, t, |seg|));
    }
  }

  /** Each segment's indices lie in `[0, total_images - 1]` once there is an
    * image: the range ends are cut and the smooth values are clamped. */
  lemma SegmentInPool(cur: Category, s: nat, room: int, total: int, cfg: Config, d: Draws)
    requires 1 <= cfg.minDuration <= cfg.maxDuration && room >= 1 && total >= 1
    ensures InPool(Segment(cur, s, room, total, cfg, d), total)
  {
    ConfiguredRangesBounded(cur);
    var rs := EnhancedRanges(cur);
    assert rs[d.rangePick(s) % |rs|] in rs;
    var (start, end) := SegmentRange(cur, s, total, d);
    assert 0 <= start <= total - 1 && end <= total - 1;
    var duration := Duration(s, room, cfg, d);
    if start != end && duration > 1 {
      var seg := Smooth(start, end, duration, total, d, s);
      forall i | 0 <= i < |seg| ensures 0 <= seg[i] <= total - 1 {
        assert seg[i] == IndexWalk.Clamp(if i == 0 then start else if i == duration - 1 then end else d.between(s, i), total - 1);
      }
    }
  }

  lemma InPoolConcat(a: seq<int>, b: seq<int>, total: int)
    requires InPool(a, total) && InPool(b, total)
    ensures InPool(a + b, total)
  {
    forall i | 0 <= i < |a + b| ensures 0 <= (a + b)[i] <= total - 1 {
      if i >= |a| { assert (a + b)[i] == b[i - |a|]; }
    }
  }

  lemma {:induction false} SegmentsInPool(e: Env, t: Turn)
    requires ValidDurations(e.cfg) && e.total >= 1
    ensures InPool(SegmentsFrom(e, t), e.total)
    decreases e.audioLength - t.frameIdx
  {
    if t.frameIdx < e.audioLength {
      var seg := TurnSegment(e, t);
      SegmentInPool(t.cur, t.s, e.audioLength - t.frameIdx, e.total, e.cfg, e.d);
      SegmentsInPool(e, AfterTurn(e, t, |seg|));
      InPoolConcat(seg, SegmentsFrom(e, AfterTurn(e, t, |seg|)), e.total);
    }
  }

  /** With variety on and a valid duration range, the sequence has exactly
    * `audio_length` indices (the trim and pad never change it) and, with at
    * least one image, every index is an image of the pool. */
  lemma ActionSequenceShape(text: string, audioLength: int, total: int, cfg: Config, d: Draws)
    requires cfg.variety && 1 <= cfg.minDuration <= cfg.maxDuration && audioLength >= 1
    ensures var r := ActionSequence(text, audioLength, total, cfg, d);
      r.Ok? && |r.value| == audioLength
      && r.value == SegmentsFrom(Env(audioLength, total, cfg, d), Turn(0, 0, ClassifyByMax(EnhancedTable, text, d.classPick)))
      && (total >= 1 ==> InPool(r.value, total))
  {
    var e := Env(audioLength, total, cfg, d);
    var t := Turn(0, 0, ClassifyByMax(EnhancedTable, text, d.classPick));
    SegmentsLength(e, t);
    if total >= 1 {
      SegmentsInPool(e, t);
    }
  }

  /** With variety on, an empty audio raises; with variety off the simple
    * sequence is returned whatever the other settings. */
  lemma ActionSequenceEdges(text: string, audioLength: int, total: int, cfg: Config, d: Draws)
    requires cfg.variety ==> cfg.minDuration >= 1
    ensures cfg.variety && audioLength <= 0 ==> ActionSequence(text, audioLength, total, cfg, d) == Err(EmptyMin)
    ensures !cfg.variety ==> ActionSequence(text, audioLength, total, cfg, d) == Ok(SimpleSpec(total, audioLength))
    ensures cfg.variety && audioLength >= 1 && cfg.minDuration > cfg.maxDuration ==>
      ActionSequence(text, audioLength, total, cfg, d).Err?
  {
  }
}
