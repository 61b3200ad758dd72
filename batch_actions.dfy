// The batch generator's per-sentence action ranges and frame estimates
// (digital_human_batch_generator.py). The frame-to-range lookup the
// generated script runs is `IndexWalk.BatchImageIndex`.

module BatchActions {
  import opened Wrappers
  import opened ActionClassifier
  import IndexWalk

  /** `total_images`: the number of `.jpg` files in the image directory, or
    * 1177 when the directory does not exist. */
  function TotalImages(jpgCount: Option<nat>): (n: nat)
    ensures jpgCount.Some? ==> n == jpgCount.value
    ensures jpgCount.None? ==> n == 1177
  {
    match jpgCount
    case Some(k) => k
    case None => 1177
  }

  /** The range one sentence gets: its category's range chosen by
    * `rangePick`, with both ends cut to `total_images - 1`. */
  function SentenceRange(c: Category, totalImages: int, rangePick: nat): (int, int) {
    var rs := BatchRanges(c);
    ConfiguredRangesBounded(c);
    var r := rs[rangePick % |rs|];
    (IndexWalk.Min(r.0, totalImages - 1), IndexWalk.Min(r.1, totalImages - 1))
  }

  /** The ranges chosen for every sentence. `classPick(k)` and `rangePick(k)`
    * are the `random.choice` draws made for sentence `k`. */
  function BatchRangesSpec(sentences: seq<string>, totalImages: int, classPick: nat -> nat, rangePick: nat -> nat)
    : (rs: seq<(int, int)>)
    ensures |rs| == |sentences|
    ensures forall k :: 0 <= k < |rs| ==>
      rs[k] == SentenceRange(ClassifyByMax(BatchTable, sentences[k], classPick(k)), totalImages, rangePick(k))
  {
    seq(|sentences|, k requires 0 <= k < |sentences| =>
      SentenceRange(ClassifyByMax(BatchTable, sentences[k], classPick(k)), totalImages, rangePick(k)))
  }

  /** `analyze_batch_actions`: one `(start, end)` per sentence, appended in
    * order. */
  method AnalyzeBatchActions(sentences: seq<string>, totalImages: int, classPick: nat -> nat, rangePick: nat -> nat)
    returns (actionSequence: seq<(int, int)>)
    ensures actionSequence == BatchRangesSpec(sentences, totalImages, classPick, rangePick)
  {
    ghost var spec := BatchRangesSpec(sentences, totalImages, classPick, rangePick);
    actionSequence := [];
    for k := 0 to |sentences|
      invariant |actionSequence| == k
      invariant forall j :: 0 <= j < k ==> actionSequence[j] == spec[j]
    {
      var actionType := AnalyzeSentence(BatchTable, sentences[k], classPick(k));
      var ranges := BatchRanges(actionType);
      ConfiguredRangesBounded(actionType);
      var selected := ranges[rangePick(k) % |ranges|];
      var startImg := IndexWalk.Min(selected.0, totalImages - 1);
      var endImg := IndexWalk.Min(selected.1, totalImages - 1);
      assert (startImg, endImg) == spec[k];
      actionSequence := actionSequence + [(startImg, endImg)];
    }
  }

  /** Every sentence's range comes from its own category, is ordered, and
    * stays in `[0, total_images - 1]` once there is at least one image; with
    * 1178 images or more the configured range is kept as it is. */
  lemma BatchRangesBounded(sentences: seq<string>, totalImages: int, classPick: nat -> nat, rangePick: nat -> nat, k: nat)
    requires k < |sentences| && totalImages >= 1
    ensures var r := BatchRangesSpec(sentences, totalImages, classPick, rangePick)[k];
      0 <= r.0 <= r.1 <= totalImages - 1
    ensures var c := ClassifyByMax(BatchTable, sentences[k], classPick(k));
      var r := BatchRangesSpec(sentences, totalImages, classPick, rangePick)[k];
      totalImages >= 1178 ==> r in BatchRanges(c)
  {
    var c := ClassifyByMax(BatchTable, sentences[k], classPick(k));
    ConfiguredRangesBounded(c);
    var rs := BatchRanges(c);
    assert rs[rangePick(k) % |rs|] in rs;
  }

  /** With no image at all both ends become `-1`, outside the image pool. */
  lemma NoImagesGivesMinusOne(sentences: seq<string>, classPick: nat -> nat, rangePick: nat -> nat, k: nat)
    requires k < |sentences|
    ensures BatchRangesSpec(sentences, 0, classPick, rangePick)[k] == (-1, -1)
  {
    var c := ClassifyByMax(BatchTable, sentences[k], classPick(k));
    ConfiguredRangesBounded(c);
    var rs := BatchRanges(c);
    assert rs[rangePick(k) % |rs|] in rs;
  }

  // ---------------------------------------------------------------------
  // Frame estimates

  function TotalChars(sentences: seq<string>): nat
    decreases |sentences|
  {
    if sentences == [] then 0 else TotalChars(sentences[..|sentences| - 1]) + |sentences[|sentences| - 1]|
  }

  lemma {:induction false} TotalCharsZero(sentences: seq<string>, k: nat)
    requires k < |sentences| && TotalChars(sentences) == 0
    ensures sentences[k] == []
    decreases |sentences|
  {
    if k < |sentences| - 1 {
      TotalCharsZero(sentences[..|sentences| - 1], k);
    }
  }

  /** The estimate of one sentence. When the sentences have no characters
    * at all the ratio is `1.0 / len(sentences)`, whose `int(· * 100)` is
    * `100 / len(sentences)`; otherwise the ratio `len(s) / total_chars` is a
    * floating-point value and `ratioFrames` is `int(ratio * 100)`. */
  function FrameEstimate(count: nat, totalChars: nat, ratioFrames: int): int
    requires count > 0
  {
    var scaled := if totalChars > 0 then ratioFrames else 100 / count;
    if scaled >= 10 then scaled else 10
  }

  /** Estimates for all sentences; `ratioFrames(k)` stands for sentence `k`. */
  function FrameEstimates(sentences: seq<string>, ratioFrames: nat -> int): (fs: seq<int>)
    ensures |fs| == |sentences|
    ensures forall k :: 0 <= k < |fs| ==> fs[k] == FrameEstimate(|sentences|, TotalChars(sentences), ratioFrames(k))
  {
    seq(|sentences|, k requires 0 <= k < |sentences| =>
      FrameEstimate(|sentences|, TotalChars(sentences), ratioFrames(k)))
  }

  /** The estimation loop of `_generate_batch_action_logic`. An empty
    * sentence list never reaches the division. */
  method SentenceFrames(sentences: seq<string>, ratioFrames: nat -> int) returns (sentenceFrames: seq<int>)
    ensures sentenceFrames == FrameEstimates(sentences, ratioFrames)
  {
    var totalChars := 0;
    for k := 0 to |sentences|
      invariant totalChars == TotalChars(sentences[..k])
    {
      assert sentences[..k + 1][..k] == sentences[..k];
      totalChars := totalChars + |sentences[k]|;
    }
    assert sentences[..|sentences|] == sentences;
    sentenceFrames := [];
    for k := 0 to |sentences|
      invariant |sentenceFrames| == k
      invariant forall j :: 0 <= j < k ==> sentenceFrames[j] == FrameEstimates(sentences, ratioFrames)[j]
    {
      var scaled := if totalChars > 0 then ratioFrames(k) else 100 / |sentences|;
      var estimatedFrames := if scaled >= 10 then scaled else 10;
      sentenceFrames := sentenceFrames + [estimatedFrames];
    }
  }

  /** Every estimate is at least 10 frames; with no characters at all every
    * sentence gets `max(10, 100 / len(sentences))`, and each such sentence is
    * empty. */
  lemma FrameEstimatesBounds(sentences: seq<string>, ratioFrames: nat -> int, k: nat)
    requires k < |sentences|
    ensures FrameEstimates(sentences, ratioFrames)[k] >= 10
    ensures TotalChars(sentences) == 0 ==>
      FrameEstimates(sentences, ratioFrames)[k] == IndexWalk.Max(10, 100 / |sentences|)
      && sentences[k] == []
  {
    if TotalChars(sentences) == 0 {
      TotalCharsZero(sentences, k);
    }
  }
}
