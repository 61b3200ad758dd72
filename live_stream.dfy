// The two live-streaming pipelines: live_stream_system.py (Linux) and
// live_stream_windows.py. Both keep sentences and finished videos in a
// `StreamBuffer` of two `queue.Queue`s, but they disagree on what a full
// queue does: the Linux buffer drops the new item, the Windows buffer
// evicts the oldest one. Queue operations are modelled sequentially (a
// `put` with a timeout on a full queue fails at once, a `get` on an empty
// queue answers `None`); speech synthesis, video rendering and file
// removal are inputs or outputs of the methods.

module LiveStream {
  import opened Wrappers
  import opened PyText
  import ScriptText
  import opened PyQueue

  // ---------------------------------------------------------------------
  // live_stream_system.py: StreamBuffer (drop newest)

  class DropNewestBuffer {
    const maxSize: int
    var textQueue: seq<string>
    var videoQueue: seq<string>

    predicate Valid()
      reads this
    {
      Fits(textQueue, maxSize) && Fits(videoQueue, maxSize)
    }

    /** Both queues share the bound `max_size`. */
    constructor (maxSize: int)
      ensures Valid() && this.maxSize == maxSize && textQueue == [] && videoQueue == []
    {
      this.maxSize := maxSize;
      textQueue := [];
      videoQueue := [];
    }

    /** `add_text`: on `queue.Full` only a warning is logged. */
    method AddText(text: string)
      requires Valid()
      modifies this
      ensures Valid()
      ensures textQueue == OfferDropNewest(old(textQueue), maxSize, text) && videoQueue == old(videoQueue)
    {
      if !IsFull(textQueue, maxSize) {
        textQueue := textQueue + [text];
      }
    }

    /** `get_text`: the oldest text, or `None` on an empty queue. */
    method GetText() returns (text: Option<string>)
      requires Valid()
      modifies this
      ensures Valid() && videoQueue == old(videoQueue)
      ensures old(textQueue) == [] ==> text.None? && textQueue == []
      ensures old(textQueue) != [] ==> text == Some(old(textQueue)[0]) && textQueue == old(textQueue)[1..]
    {
      if textQueue == [] {
        text := None;
      } else {
        text := Some(textQueue[0]);
        textQueue := textQueue[1..];
      }
    }

    /** `add_video`: the same policy as `add_text`. */
    method AddVideo(videoPath: string)
      requires Valid()
      modifies this
      ensures Valid()
      ensures videoQueue == OfferDropNewest(old(videoQueue), maxSize, videoPath) && textQueue == old(textQueue)
    {
      if !IsFull(videoQueue, maxSize) {
        videoQueue := videoQueue + [videoPath];
      }
    }

    /** `get_video`: the oldest video, or `None` on an empty queue. */
    method GetVideo() returns (videoPath: Option<string>)
      requires Valid()
      modifies this
      ensures Valid() && textQueue == old(textQueue)
      ensures old(videoQueue) == [] ==> videoPath.None? && videoQueue == []
      ensures old(videoQueue) != [] ==> videoPath == Some(old(videoQueue)[0]) && videoQueue == old(videoQueue)[1..]
    {
      if videoQueue == [] {
        videoPath := None;
      } else {
        videoPath := Some(videoQueue[0]);
        videoQueue := videoQueue[1..];
      }
    }
  }

  /** One round of `_content_generation_loop`: every sentence of the content
    * is offered in order; the `if sentence:` guard never skips one, since
    * the splitter returns no empty sentence. */
  method AddContentSentences(buffer: DropNewestBuffer, content: string)
    requires buffer.Valid()
    modifies buffer
    ensures buffer.Valid() && buffer.videoQueue == old(buffer.videoQueue)
    ensures buffer.textQueue == OfferAllDropNewest(old(buffer.textQueue), buffer.maxSize, ScriptText.SplitSentences(content))
    ensures buffer.textQueue == Oldest(old(buffer.textQueue) + ScriptText.SplitSentences(content), buffer.maxSize)
  {
    var sentences := ScriptText.SplitSentences(content);
    for k := 0 to |sentences|
      invariant buffer.Valid() && buffer.videoQueue == old(buffer.videoQueue)
      invariant buffer.textQueue == OfferAllDropNewest(old(buffer.textQueue), buffer.maxSize, sentences[..k])
    {
      ScriptText.SplitSentencesClean(content, k);
      OfferAllDropNewestStep(old(buffer.textQueue), buffer.maxSize, sentences, k);
      if sentences[k] != "" {
        buffer.AddText(sentences[k]);
      }
    }
    WholePrefix(sentences);
    DropNewestKeepsOldest(old(buffer.textQueue), buffer.maxSize, sentences);
  }

  // ---------------------------------------------------------------------
  // live_stream_system.py: the audio/video generation loop

  /** `temp/audio_{counter:06d}.wav` and `temp/video_{counter:06d}.mp4`. */
  function AudioPath(counter: nat): (p: string)
    ensures |p| >= 21 && p[..11] == "temp/audio_" && p[|p| - 4..] == ".wav"
    ensures forall j :: 11 <= j < |p| - 4 ==> IsDigit(p[j])
  {
    "temp/audio_" + ZeroPad(counter, 6) + ".wav"
  }

  function VideoPath(counter: nat): (p: string)
    ensures |p| >= 21 && p[..11] == "temp/video_" && p[|p| - 4..] == ".mp4"
    ensures forall j :: 11 <= j < |p| - 4 ==> IsDigit(p[j])
  {
    "temp/video_" + ZeroPad(counter, 6) + ".mp4"
  }

  /** Different counters name different videos. */
  lemma VideoPathInjective(a: nat, b: nat)
    requires VideoPath(a) == VideoPath(b)
    ensures a == b
  {
    var pa := ZeroPad(a, 6);
    var pb := ZeroPad(b, 6);
    assert |pa| == |pb|;
    assert pa == VideoPath(a)[11..11 + |pa|];
    assert pb == VideoPath(b)[11..11 + |pb|];
    ZeroPadInjective(a, b, 6);
  }

  /** What the synthesizer and the renderer answer for one text. */
  datatype Outcome = AudioFailed | VideoFailed | Made

  /** One pass of `_audio_video_generation_loop` with a text in hand: the
    * files are named after the current counter, and the counter advances
    * only when the video was made, so after a failure the next text reuses
    * the same names. */
  method GenerateOne(buffer: DropNewestBuffer, counter: nat, outcome: Outcome)
    returns (next: nat, audioPath: string, videoPath: Option<string>)
    requires buffer.Valid()
    modifies buffer
    ensures buffer.Valid() && buffer.textQueue == old(buffer.textQueue)
    ensures audioPath == AudioPath(counter)
    ensures outcome == Made ==>
      next == counter + 1 && videoPath == Some(VideoPath(counter))
      && buffer.videoQueue == OfferDropNewest(old(buffer.videoQueue), buffer.maxSize, VideoPath(counter))
    ensures outcome == VideoFailed ==>
      next == counter && videoPath == Some(VideoPath(counter))
      && buffer.videoQueue == old(buffer.videoQueue)
    ensures outcome == AudioFailed ==> next == counter && videoPath.None? && buffer.videoQueue == old(buffer.videoQueue)
  {
    next := counter;
    audioPath := AudioPath(counter);
    videoPath := None;
    if outcome != AudioFailed {
      videoPath := Some(VideoPath(counter));
      if outcome == Made {
        buffer.AddVideo(VideoPath(counter));
        next := counter + 1;
      }
    }
  }

  /** The counter value each text in a run is named after. */
  function CountersUsed(start: nat, outcomes: seq<Outcome>): (cs: seq<nat>)
    ensures |cs| == |outcomes|
    decreases |outcomes|
  {
    if outcomes == [] then []
    else [start] + CountersUsed(if outcomes[0] == Made then start + 1 else start, outcomes[1..])
  }

  /** Two made videos of a run always get different counters, and so (by
    * `VideoPathInjective`) different file names. */
  lemma {:induction false} MadeCountersIncrease(start: nat, outcomes: seq<Outcome>, i: nat, j: nat)
    requires i < j < |outcomes| && outcomes[i] == Made
    ensures CountersUsed(start, outcomes)[i] < CountersUsed(start, outcomes)[j]
    decreases i
  {
    var next := if outcomes[0] == Made then start + 1 else start;
    assert CountersUsed(start, outcomes)[1..] == CountersUsed(next, outcomes[1..]);
    if i == 0 {
      CountersAtLeast(next, outcomes[1..], j - 1);
    } else {
      assert outcomes[1..][i - 1] == outcomes[i];
      MadeCountersIncrease(next, outcomes[1..], i - 1, j - 1);
    }
  }

  lemma {:induction false} CountersAtLeast(start: nat, outcomes: seq<Outcome>, j: nat)
    requires j < |outcomes|
    ensures CountersUsed(start, outcomes)[j] >= start
    decreases j
  {
    if j > 0 {
      var next := if outcomes[0] == Made then start + 1 else start;
      assert CountersUsed(start, outcomes)[1..] == CountersUsed(next, outcomes[1..]);
      CountersAtLeast(next, outcomes[1..], j - 1);
    }
  }

  /** A failed text hands its counter to the next text. */
  lemma FailureReusesNames(start: nat, outcomes: seq<Outcome>, i: nat)
    requires i + 1 < |outcomes| && outcomes[i] != Made
    ensures CountersUsed(start, outcomes)[i + 1] == CountersUsed(start, outcomes)[i]
    ensures AudioPath(CountersUsed(start, outcomes)[i + 1]) == AudioPath(CountersUsed(start, outcomes)[i])
  {
    CountersStep(start, outcomes, i);
  }

  lemma {:induction false} CountersStep(start: nat, outcomes: seq<Outcome>, i: nat)
    requires i + 1 < |outcomes|
    ensures CountersUsed(start, outcomes)[i + 1]
      == CountersUsed(start, outcomes)[i] + (if outcomes[i] == Made then 1 else 0)
    decreases i
  {
    var next := if outcomes[0] == Made then start + 1 else start;
    assert CountersUsed(start, outcomes)[1..] == CountersUsed(next, outcomes[1..]);
    if i > 0 {
      assert outcomes[1..][i - 1] == outcomes[i];
      CountersStep(next, outcomes[1..], i - 1);
    }
  }

  // ---------------------------------------------------------------------
  // live_stream_windows.py: StreamBuffer (evict oldest)

  class EvictOldestBuffer {
    const maxSize: int
    var textQueue: seq<string>
    var videoQueue: seq<string>

    /** The text queue holds twice as many items as the video queue. */
    function TextCapacity(): int { 2 * maxSize }

    predicate Valid()
      reads this
    {
      Fits(textQueue, TextCapacity()) && Fits(videoQueue, maxSize)
    }

    constructor (maxSize: int)
      ensures Valid() && this.maxSize == maxSize && textQueue == [] && videoQueue == []
    {
      this.maxSize := maxSize;
      textQueue := [];
      videoQueue := [];
    }

    /** `add_text`: a full queue loses its oldest text. The `queue.Empty`
      * branch cannot be reached: a full queue is not empty. */
    method AddText(text: string)
      requires Valid()
      modifies this
      ensures Valid()
      ensures textQueue == OfferEvictOldest(old(textQueue), TextCapacity(), text) && videoQueue == old(videoQueue)
    {
      if IsFull(textQueue, TextCapacity()) {
        textQueue := textQueue[1..];
      }
      textQueue := textQueue + [text];
    }

    /** `add_video`: a full queue loses its oldest video, whose path is
      * returned because its file is then removed. */
    method AddVideo(videoPath: string) returns (removed: Option<string>)
      requires Valid()
      modifies this
      ensures Valid()
      ensures videoQueue == OfferEvictOldest(old(videoQueue), maxSize, videoPath) && textQueue == old(textQueue)
      ensures removed.Some? <==> IsFull(old(videoQueue), maxSize)
      ensures removed.Some? ==> removed.value == old(videoQueue)[0]
    {
      removed := None;
      if IsFull(videoQueue, maxSize) {
        removed := Some(videoQueue[0]);
        videoQueue := videoQueue[1..];
      }
      videoQueue := videoQueue + [videoPath];
    }

    method GetText() returns (text: Option<string>)
      requires Valid()
      modifies this
      ensures Valid() && videoQueue == old(videoQueue)
      ensures old(textQueue) == [] ==> text.None? && textQueue == []
      ensures old(textQueue) != [] ==> text == Some(old(textQueue)[0]) && textQueue == old(textQueue)[1..]
    {
      if textQueue == [] {
        text := None;
      } else {
        text := Some(textQueue[0]);
        textQueue := textQueue[1..];
      }
    }

    method GetVideo() returns (videoPath: Option<string>)
      requires Valid()
      modifies this
      ensures Valid() && textQueue == old(textQueue)
      ensures old(videoQueue) == [] ==> videoPath.None? && videoQueue == []
      ensures old(videoQueue) != [] ==> videoPath == Some(old(videoQueue)[0]) && videoQueue == old(videoQueue)[1..]
    {
      if videoQueue == [] {
        videoPath := None;
      } else {
        videoPath := Some(videoQueue[0]);
        videoQueue := videoQueue[1..];
      }
    }
  }

  /** `generate_content_batch`: an empty answer (the client's failure
    * value) adds nothing; otherwise every sentence is added in order. */
  method GenerateContentBatch(buffer: EvictOldestBuffer, longContent: string)
    requires buffer.Valid()
    modifies buffer
    ensures buffer.Valid() && buffer.videoQueue == old(buffer.videoQueue)
    ensures longContent == "" ==> buffer.textQueue == old(buffer.textQueue)
    ensures longContent != "" ==>
      buffer.textQueue == Newest(old(buffer.textQueue) + ScriptText.SplitSentences(longContent), buffer.TextCapacity())
  {
    if longContent == "" {
      return;
    }
    var sentences := ScriptText.SplitSentences(longContent);
    for k := 0 to |sentences|
      invariant buffer.Valid() && buffer.videoQueue == old(buffer.videoQueue)
      invariant buffer.textQueue == OfferAllEvictOldest(old(buffer.textQueue), buffer.TextCapacity(), sentences[..k])
    {
      OfferAllEvictOldestStep(old(buffer.textQueue), buffer.TextCapacity(), sentences, k);
      buffer.AddText(sentences[k]);
    }
    WholePrefix(sentences);
    EvictOldestKeepsNewest(old(buffer.textQueue), buffer.TextCapacity(), sentences);
  }

  /** The main loop regenerates content when fewer than five texts wait. */
  method RefillRound(buffer: EvictOldestBuffer, longContent: string)
    requires buffer.Valid()
    modifies buffer
    ensures buffer.Valid() && buffer.videoQueue == old(buffer.videoQueue)
    ensures |old(buffer.textQueue)| >= 5 || longContent == "" ==> buffer.textQueue == old(buffer.textQueue)
    ensures |old(buffer.textQueue)| < 5 && longContent != "" ==>
      buffer.textQueue == Newest(old(buffer.textQueue) + ScriptText.SplitSentences(longContent), buffer.TextCapacity())
  {
    if |buffer.textQueue| < 5 {
      GenerateContentBatch(buffer, longContent);
    }
  }

  // ---------------------------------------------------------------------
  // live_stream_windows.py: GPTSoVITSClient's audio cache

  class SpeechClient {
    var audioCache: map<string, string>

    constructor ()
      ensures audioCache == map[]
    {
      audioCache := map[];
    }

    /** `synthesize_audio`: a cached text answers `True` without running the
      * synthesizer (so `output_path` is not written); otherwise the
      * synthesizer runs and its answer is cached on return code 0.
      * `returnCode` is `None` when running it raised. */
    method SynthesizeAudio(text: string, outputPath: string, returnCode: Option<int>)
      returns (ok: bool, ran: bool)
      modifies this
      ensures text in old(audioCache) ==> ok && !ran && audioCache == old(audioCache)
      ensures text !in old(audioCache) ==> ran && (ok <==> returnCode == Some(0))
      ensures text !in old(audioCache) ==>
        audioCache == if ok then old(audioCache)[text := outputPath] else old(audioCache)
    {
      if text in audioCache {
        return true, false;
      }
      ran := true;
      if returnCode == Some(0) {
        audioCache := audioCache[text := outputPath];
        ok := true;
      } else {
        ok := false;
      }
    }
  }

  // ---------------------------------------------------------------------
  // Output-mode dispatch

  datatype Output = Udp | Rtmp | FileOutput | HttpFlv

  /** `start_stream_output` of live_stream_system.py: `None` for an
    * unsupported mode, which is only logged. */
  function SystemOutput(mode: string): (r: Option<Output>)
    ensures r.None? <==> mode !in {"udp", "rtmp", "file", "http_flv"}
  {
    if mode == "udp" then Some(Udp)
    else if mode == "rtmp" then Some(Rtmp)
    else if mode == "file" then Some(FileOutput)
    else if mode == "http_flv" then Some(HttpFlv)
    else None
  }

  /** The Windows version has no HTTP-FLV output. */
  function WindowsOutput(mode: string): (r: Option<Output>)
    ensures r.None? <==> mode !in {"udp", "file", "rtmp"}
  {
    if mode == "udp" then Some(Udp)
    else if mode == "file" then Some(FileOutput)
    else if mode == "rtmp" then Some(Rtmp)
    else None
  }

  /** Every mode the Windows system accepts starts the same output on Linux;
    * `http_flv` is the one mode only Linux accepts. */
  lemma OutputsAgree(mode: string)
    ensures WindowsOutput(mode).Some? ==> SystemOutput(mode) == WindowsOutput(mode)
    ensures SystemOutput(mode).Some? && WindowsOutput(mode).None? <==> mode == "http_flv"
  {
  }
}
