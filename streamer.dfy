// The UDP streamers: `UDPStreamer` of agent/dh_streamer.py and
// `OptimizedUDPStreamer` of digital_human_optimized.py keep a buffer of
// clips that they refill from the video queue and stream front-first;
// `UDPStreamer` of digital_human_deepseek.py streams each queued clip as it
// arrives. The ffmpeg command lines they build are modelled as values; the
// processes they start are a `processRunning` flag, worker threads are one
// loop iteration per call, and `os.path.exists` is the `present` input.

module Streamer {
  import opened Wrappers
  import opened PyText
  import opened PyQueue

  /** What a video queue hands out: the producers put `(video, audio)`
    * pairs, and `NotAPair` stands for any value that is not a 2-tuple. */
  datatype Item = Pair(video: string, audio: Option<string>) | NotAPair

  /** A buffered video with its optional audio track. */
  datatype Clip = Clip(video: string, audio: Option<string>)

  /** The workers keep a 2-tuple whose video path is non-empty and exists. */
  predicate Playable(item: Item, present: string -> bool) {
    item.Pair? && item.video != "" && present(item.video)
  }

  /** The clips kept from `items`, in order; every other item is consumed
    * and discarded. */
  function Kept(items: seq<Item>, present: string -> bool): (r: seq<Clip>)
    ensures |r| <= |items|
    ensures forall i :: 0 <= i < |r| ==> r[i].video != "" && present(r[i].video)
    decreases |items|
  {
    if items == [] then []
    else
      var last := items[|items| - 1];
      Kept(items[..|items| - 1], present) + (if Playable(last, present) then [Clip(last.video, last.audio)] else [])
  }

  lemma {:induction false} KeptAppend(a: seq<Item>, b: seq<Item>, present: string -> bool)
    ensures Kept(a + b, present) == Kept(a, present) + Kept(b, present)
    decreases |b|
  {
    if b != [] {
      assert (a + b)[..|a + b| - 1] == a + b[..|b| - 1];
      KeptAppend(a, b[..|b| - 1], present);
    } else {
      assert a + b == a;
    }
  }

  /** The number of items the refill loop takes from the queue, starting
    * with `bufLen` buffered clips: it stops once the buffer holds
    * `capacity` clips or the queue is empty. */
  function Consumed(bufLen: nat, queue: seq<Item>, capacity: int, present: string -> bool): (n: nat)
    ensures n <= |queue|
    decreases |queue|
  {
    if bufLen >= capacity || queue == [] then 0
    else 1 + Consumed(bufLen + (if Playable(queue[0], present) then 1 else 0), queue[1..], capacity, present)
  }

  /** The buffer after a refill from `queue`. */
  function Refilled(buffer: seq<Clip>, queue: seq<Item>, capacity: int, present: string -> bool): seq<Clip> {
    buffer + Kept(queue[..Consumed(|buffer|, queue, capacity, present)], present)
  }

  /** The queue after a refill of `buffer`. */
  function Remaining(buffer: seq<Clip>, queue: seq<Item>, capacity: int, present: string -> bool): seq<Item> {
    queue[Consumed(|buffer|, queue, capacity, present)..]
  }

  /** The refill takes exactly as many items as it needs: before the last
    * one taken the buffer was still short of `capacity`, and it stops with
    * the buffer at `capacity` (never beyond it) or the queue drained. */
  lemma {:induction false} RefillStopsAtCapacity(bufLen: nat, queue: seq<Item>, capacity: int, present: string -> bool)
    ensures var n := Consumed(bufLen, queue, capacity, present);
      (bufLen <= capacity ==> bufLen + |Kept(queue[..n], present)| <= capacity)
      && (n == |queue| || bufLen + |Kept(queue[..n], present)| >= capacity)
      && (forall m :: 0 <= m < n ==> bufLen + |Kept(queue[..m], present)| < capacity)
    decreases |queue|
  {
    var n := Consumed(bufLen, queue, capacity, present);
    assert queue[..0] == [];
    if n > 0 {
      var step := if Playable(queue[0], present) then 1 else 0;
      RefillStopsAtCapacity(bufLen + step, queue[1..], capacity, present);
      KeptPrefixCount(queue, n, present);
      forall m | 0 < m < n
        ensures bufLen + |Kept(queue[..m], present)| < capacity
      {
        KeptPrefixCount(queue, m, present);
      }
    }
  }

  /** The clips kept from the first `m` items: the first item's share and
    * that of the `m - 1` after it. */
  lemma KeptPrefixCount(queue: seq<Item>, m: nat, present: string -> bool)
    requires 0 < m <= |queue|
    ensures |Kept(queue[..m], present)|
      == (if Playable(queue[0], present) then 1 else 0) + |Kept(queue[1..][..m - 1], present)|
  {
    assert queue[..m] == [queue[0]] + queue[1..][..m - 1];
    KeptAppend([queue[0]], queue[1..][..m - 1], present);
    assert [queue[0]][..0] == [];
  }

  /** One turn of the refill loop, in terms of the items taken so far. */
  lemma RefillStep(b0: seq<Clip>, q0: seq<Item>, i: nat, buf: seq<Clip>, capacity: int, present: string -> bool)
    requires i < |q0| && |buf| < capacity
    requires buf == b0 + Kept(q0[..i], present)
    requires Consumed(|b0|, q0, capacity, present) == i + Consumed(|buf|, q0[i..], capacity, present)
    ensures var next := buf + (if Playable(q0[i], present) then [Clip(q0[i].video, q0[i].audio)] else []);
      next == b0 + Kept(q0[..i + 1], present)
      && Consumed(|b0|, q0, capacity, present) == i + 1 + Consumed(|next|, q0[i + 1..], capacity, present)
  {
    assert q0[..i + 1][..i] == q0[..i];
    assert q0[i..][1..] == q0[i + 1..];
  }

  /** The refill loop on the worker's `video_buffer`: items are taken from
    * the queue until the buffer holds `capacity` clips or the queue is
    * empty, and the playable ones are appended. */
  method RefillBuffer(q: Queue<Item>, buffer: seq<Clip>, capacity: int, present: string -> bool)
    returns (filled: seq<Clip>)
    requires q.Valid()
    modifies q
    ensures q.Valid()
    ensures var n := Consumed(|buffer|, old(q.items), capacity, present);
      q.items == old(q.items)[n..] && filled == buffer + Kept(old(q.items)[..n], present)
  {
    ghost var q0 := q.items;
    filled := buffer;
    ghost var i := 0;
    while |filled| < capacity
      invariant q.Valid() && 0 <= i <= |q0|
      invariant q.items == q0[i..]
      invariant filled == buffer + Kept(q0[..i], present)
      invariant Consumed(|buffer|, q0, capacity, present) == i + Consumed(|filled|, q.items, capacity, present)
      decreases |q.items|
    {
      var x := q.Get();
      if x.None? {
        break;
      }
      RefillStep(buffer, q0, i, filled, capacity, present);
      if Playable(x.value, present) {
        filled := filled + [Clip(x.value.video, x.value.audio)];
      }
      i := i + 1;
    }
  }

  // ---------------------------------------------------------------------
  // ffmpeg command lines

  /** The host every streamer targets unless `get_wsl_host_ip` says
    * otherwise (also its fallback answer). */
  const WslHost: string := "172.18.0.1"
  const LowLatencyQuery: string := "pkt_size=1316&buffer_size=65536"
  const SmallPacketQuery: string := "pkt_size=512"

  /** `f"udp://{host}:{port}?{query}"` */
  function UdpUrl(host: string, port: int, query: string): (url: string)
    ensures |url| >= |host| + 9 && url[..6] == "udp://" && url[6..6 + |host|] == host && url[6 + |host|] == ':'
  {
    "udp://" + host + ":" + IntText(port) + "?" + query
  }

  predicate AllDigits(s: string) {
    forall k :: 0 <= k < |s| ==> IsDigit(s[k])
  }

  /** Reads a `udp://host:port?query` URL: the host runs to the first `:`,
    * the port (decimal digits) from there to the first `?`, and the query
    * is the rest. */
  function ParseUdpUrl(url: string): (r: Option<(string, nat, string)>)
    ensures r.Some? ==>
      |url| > 6 + |r.value.0| && url[..6] == "udp://"
      && url[6..6 + |r.value.0|] == r.value.0 && url[6 + |r.value.0|] == ':'
    ensures r.Some? ==> ':' !in r.value.0
  {
    if |url| < 6 || url[..6] != "udp://" || ':' !in url[6..] then None
    else
      var rest := url[6..];
      var after := rest[FirstIndex(rest, ':') + 1..];
      if '?' !in after then None
      else
        var port := after[..FirstIndex(after, '?')];
        if port == [] || !AllDigits(port) then None
        else Some((rest[..FirstIndex(rest, ':')], ParseDecimal(port), after[FirstIndex(after, '?') + 1..]))
  }

  /** The URL reads back as the host, port and query it was made from,
    * for a host without `:` or `?`. */
  lemma UrlRoundTrip(host: string, port: nat, query: string)
    requires ':' !in host && '?' !in host
    ensures ParseUdpUrl(UdpUrl(host, port, query)) == Some((host, port, query))
  {
    var p := Digits(port);
    var tail := p + "?" + query;
    assert UdpUrl(host, port, query)[6..] == host + [':'] + tail;
    FirstIndexAfter(host, ':', tail);
    assert '?' !in p by { forall k | 0 <= k < |p| ensures p[k] != '?' { assert IsDigit(p[k]); } }
    assert tail == p + ['?'] + query;
    FirstIndexAfter(p, '?', query);
    ParseDigits(port);
  }

  /** `_stream_video` takes the audio branch for a non-empty audio path
    * that exists. */
  predicate UsesAudio(audio: Option<string>, present: string -> bool) {
    audio.Some? && audio.value != "" && present(audio.value)
  }

  /** The input files of a command line: the argument after each `-i`. */
  function InputsOf(cmd: seq<string>): seq<string>
    decreases |cmd|
  {
    if |cmd| < 2 then []
    else if cmd[0] == "-i" then [cmd[1]] + InputsOf(cmd[2..])
    else InputsOf(cmd[1..])
  }

  lemma {:induction false} InputsSkip(fixed: seq<string>, rest: seq<string>)
    requires "-i" !in fixed
    ensures InputsOf(fixed + rest) == InputsOf(rest)
    decreases |fixed|
  {
    if fixed != [] {
      assert (fixed + rest)[1..] == fixed[1..] + rest;
      InputsSkip(fixed[1..], rest);
    } else {
      assert fixed + rest == rest;
    }
  }

  /** `-i` before each input file. */
  function InputArgs(files: seq<string>): (args: seq<string>)
    ensures |args| == 2 * |files|
  {
    if files == [] then [] else ["-i", files[0]] + InputArgs(files[1..])
  }

  lemma {:induction false} InputArgsRead(files: seq<string>, rest: seq<string>)
    ensures InputsOf(InputArgs(files) + rest) == files + InputsOf(rest)
  {
    if files != [] {
      var more := InputArgs(files[1..]) + rest;
      assert InputArgs(files) + rest == ["-i", files[0]] + more;
      assert (["-i", files[0]] + more)[2..] == more;
      InputArgsRead(files[1..], rest);
    } else {
      assert InputArgs(files) + rest == rest;
    }
  }

  /** An ffmpeg command line: leading options, the inputs, the output
    * options and the target. */
  function Command(head: seq<string>, files: seq<string>, options: seq<string>, target: string): seq<string> {
    head + InputArgs(files) + options + [target]
  }

  /** The input files read back from a command whose fixed options contain
    * no `-i`. */
  lemma CommandInputs(head: seq<string>, files: seq<string>, options: seq<string>, target: string)
    requires "-i" !in head && "-i" !in options
    ensures InputsOf(Command(head, files, options, target)) == files
    ensures |Command(head, files, options, target)| == |head| + 2 * |files| + |options| + 1
    ensures Command(head, files, options, target)[..|head|] == head
    ensures Command(head, files, options, target)[|head| + 2 * |files| + |options|] == target
  {
    var tail := options + [target];
    InputsSkip(options, [target]);
    InputArgsRead(files, tail);
    assert Command(head, files, options, target) == head + (InputArgs(files) + tail);
    InputsSkip(head, InputArgs(files) + tail);
  }

  /** The options that follow the inputs in the buffered streamers'
    * commands, with and without the audio track. */
  const AudioOptions: seq<string> := [
    "-c:v", "libopenh264", "-b:v", "800k", "-c:a", "libmp3lame", "-b:a", "48k",
    "-ar", "32000", "-ac", "1", "-f", "mpegts", "-pix_fmt", "yuv420p", "-shortest",
    "-flush_packets", "1", "-fflags", "+genpts"]
  const VideoOptions: seq<string> := [
    "-c:v", "libopenh264", "-b:v", "800k", "-f", "mpegts", "-pix_fmt", "yuv420p",
    "-flush_packets", "1", "-fflags", "+genpts"]
  const DirectAudioOptions: seq<string> := [
    "-c:v", "libopenh264", "-b:v", "1000k", "-c:a", "libmp3lame", "-b:a", "64k",
    "-ar", "32000", "-ac", "1", "-f", "mpegts", "-pix_fmt", "yuv420p", "-shortest"]
  const DirectVideoOptions: seq<string> := [
    "-c:v", "libopenh264", "-b:v", "1000k", "-f", "mpegts", "-pix_fmt", "yuv420p"]

  /** The input files of a command: the video, then the audio when it is
    * used. */
  function InputFiles(video: string, audio: Option<string>, present: string -> bool): seq<string> {
    [video] + (if UsesAudio(audio, present) then [audio.value] else [])
  }

  /** The command of `_stream_video` (agent/dh_streamer.py),
    * `_stream_video_optimized` and `_build_ffmpeg_command`: the audio is a
    * second input only when it exists, the clip loops forever when
    * `stream_loop` is set, and the stream goes to `url`. */
  function StreamCommand(video: string, audio: Option<string>, present: string -> bool,
                         streamLoop: bool, url: string): (cmd: seq<string>)
    ensures InputsOf(cmd) == [video] + (if UsesAudio(audio, present) then [audio.value] else [])
    ensures |cmd| == (if UsesAudio(audio, present) then 31 else 20)
    ensures cmd[..5] == ["ffmpeg", "-y", "-re", "-stream_loop", if streamLoop then "-1" else "0"]
    ensures cmd[|cmd| - 1] == url
  {
    var head := ["ffmpeg", "-y", "-re", "-stream_loop", if streamLoop then "-1" else "0"];
    var options := if UsesAudio(audio, present) then AudioOptions else VideoOptions;
    CommandInputs(head, InputFiles(video, audio, present), options, url);
    Command(head, InputFiles(video, audio, present), options, url)
  }

  /** The command of `_stream_video` in digital_human_deepseek.py: no
    * looping option, higher bit rates, and small packets to `url`. */
  function DirectCommand(video: string, audio: Option<string>, present: string -> bool, url: string): (cmd: seq<string>)
    ensures InputsOf(cmd) == [video] + (if UsesAudio(audio, present) then [audio.value] else [])
    ensures |cmd| == (if UsesAudio(audio, present) then 25 else 14)
    ensures cmd[..4] == ["ffmpeg", "-y", "-re", "-i"]
    ensures cmd[|cmd| - 1] == url
  {
    var head := ["ffmpeg", "-y", "-re"];
    var options := if UsesAudio(audio, present) then DirectAudioOptions else DirectVideoOptions;
    CommandInputs(head, InputFiles(video, audio, present), options, url);
    Command(head, InputFiles(video, audio, present), options, url)
  }

  // ---------------------------------------------------------------------
  // The buffered streamers

  /** `UDPStreamer` of agent/dh_streamer.py (capacity 5, host from
    * `get_wsl_host_ip`) and `OptimizedUDPStreamer` (capacity
    * `video_buffer_size`, host `WslHost`). The buffer is the worker's
    * `video_buffer`; `accepted` and `streamed` record, for the current
    * worker, every clip the refill kept and every clip streamed. */
  class BufferedStreamer {
    const capacity: int
    const hostIp: string
    const udpPort: int
    const streamLoop: bool
    var streaming: bool
    var processRunning: bool
    var videoBuffer: seq<Clip>
    ghost var accepted: seq<Clip>
    ghost var streamed: seq<Clip>

    /** The buffer never holds more than `capacity` clips, and clips leave
      * it in the order they were accepted. */
    ghost predicate Valid()
      reads this
    {
      (|videoBuffer| <= capacity || videoBuffer == []) && accepted == streamed + videoBuffer
    }

    function Url(): string
      reads this
    {
      UdpUrl(hostIp, udpPort, LowLatencyQuery)
    }

    constructor (capacity: int, hostIp: string, udpPort: int, streamLoop: bool)
      ensures Valid()
      ensures this.capacity == capacity && this.hostIp == hostIp && this.udpPort == udpPort
      ensures this.streamLoop == streamLoop
      ensures !streaming && !processRunning && videoBuffer == [] && streamed == []
    {
      this.capacity := capacity;
      this.hostIp := hostIp;
      this.udpPort := udpPort;
      this.streamLoop := streamLoop;
      streaming := false;
      processRunning := false;
      videoBuffer := [];
      accepted := [];
      streamed := [];
    }

    /** `start_stream` of agent/dh_streamer.py: nothing happens when a
      * worker is already streaming; otherwise a new worker starts with an
      * empty buffer. */
    method StartStream() returns (started: bool)
      requires Valid()
      modifies this
      ensures Valid()
      ensures started <==> !old(streaming)
      ensures streaming && processRunning == old(processRunning)
      ensures !started ==> videoBuffer == old(videoBuffer) && accepted == old(accepted) && streamed == old(streamed)
      ensures started ==> videoBuffer == [] && streamed == []
    {
      if streaming {
        return false;
      }
      streaming := true;
      videoBuffer := [];
      accepted := [];
      streamed := [];
      started := true;
    }

    /** `start_stream` of digital_human_optimized.py, which is the worker
      * itself: no guard, and a fresh buffer. */
    method StartStreamUnguarded()
      modifies this
      ensures Valid()
      ensures streaming && processRunning == old(processRunning)
      ensures videoBuffer == [] && streamed == []
    {
      streaming := true;
      videoBuffer := [];
      accepted := [];
      streamed := [];
    }

    /** `stop_stream` of agent/dh_streamer.py: nothing happens when not
      * streaming; otherwise the flag drops and a running process is
      * terminated. */
    method StopStream()
      requires Valid()
      modifies this
      ensures Valid()
      ensures !old(streaming) ==> streaming == old(streaming) && processRunning == old(processRunning)
      ensures !streaming
      ensures old(streaming) ==> !processRunning
      ensures videoBuffer == old(videoBuffer) && streamed == old(streamed)
    {
      if !streaming {
        return;
      }
      streaming := false;
      processRunning := false;
    }

    /** `stop_stream` of digital_human_optimized.py: no guard. */
    method StopStreamUnguarded()
      requires Valid()
      modifies this
      ensures Valid()
      ensures !streaming && !processRunning
      ensures videoBuffer == old(videoBuffer) && streamed == old(streamed)
    {
      streaming := false;
      processRunning := false;
    }

    /** The refill of the buffer, which then still holds at most
      * `capacity` clips. */
    method Refill(q: Queue<Item>, present: string -> bool)
      requires Valid() && q.Valid()
      modifies this, q
      ensures Valid() && q.Valid()
      ensures q.items == Remaining(old(videoBuffer), old(q.items), capacity, present)
      ensures videoBuffer == Refilled(old(videoBuffer), old(q.items), capacity, present)
      ensures streaming == old(streaming) && processRunning == old(processRunning) && streamed == old(streamed)
    {
      RefillStopsAtCapacity(|videoBuffer|, q.items, capacity, present);
      videoBuffer := RefillBuffer(q, videoBuffer, capacity, present);
      accepted := streamed + videoBuffer;
    }

    /** `_stream_video` / `_stream_video_optimized`: any running process is
      * terminated, the new one runs until it exits or its 30-second
      * timeout terminates it. */
    method StreamVideo(clip: Clip, present: string -> bool) returns (cmd: seq<string>)
      modifies this
      ensures cmd == StreamCommand(clip.video, clip.audio, present, streamLoop, Url())
      ensures !processRunning
      ensures streaming == old(streaming) && videoBuffer == old(videoBuffer)
      ensures accepted == old(accepted) && streamed == old(streamed)
    {
      cmd := StreamCommand(clip.video, clip.audio, present, streamLoop, Url());
      processRunning := false;
    }

    /** One iteration of the worker loop: refill, then stream the clip at
      * the front of the buffer, if any (`pop(0)`). */
    method WorkerStep(q: Queue<Item>, present: string -> bool) returns (next: Option<Clip>, cmd: Option<seq<string>>)
      requires Valid() && q.Valid()
      modifies this, q
      ensures Valid() && q.Valid()
      ensures q.items == Remaining(old(videoBuffer), old(q.items), capacity, present)
      ensures var filled := Refilled(old(videoBuffer), old(q.items), capacity, present);
        (filled == [] ==> next.None? && cmd.None? && videoBuffer == [])
        && (filled != [] ==>
              next == Some(filled[0]) && videoBuffer == filled[1..]
              && cmd == Some(StreamCommand(filled[0].video, filled[0].audio, present, streamLoop, Url())))
      ensures streamed == old(streamed) + (if next.Some? then [next.value] else [])
      ensures streaming == old(streaming)
    {
      Refill(q, present);
      if videoBuffer == [] {
        return None, None;
      }
      var clip := videoBuffer[0];
      assert accepted == (streamed + [clip]) + videoBuffer[1..];
      videoBuffer := videoBuffer[1..];
      streamed := streamed + [clip];
      var c := StreamVideo(clip, present);
      next, cmd := Some(clip), Some(c);
    }
  }

  // ---------------------------------------------------------------------
  // The unbuffered streamer of digital_human_deepseek.py

  class DirectStreamer {
    const udpPort: int
    var streaming: bool

    constructor (udpPort: int)
      ensures this.udpPort == udpPort && !streaming
    {
      this.udpPort := udpPort;
      streaming := false;
    }

    method StartStream()
      modifies this
      ensures streaming
    {
      streaming := true;
    }

    method StopStream()
      modifies this
      ensures !streaming
    {
      streaming := false;
    }

    /** One iteration of the loop in `start_stream`: the next item is
      * streamed when it is playable and dropped otherwise. */
    method WorkerStep(q: Queue<Item>, present: string -> bool) returns (next: Option<Clip>, cmd: Option<seq<string>>)
      requires q.Valid()
      modifies q
      ensures q.Valid()
      ensures old(q.items) == [] ==> q.items == [] && next.None?
      ensures old(q.items) != [] ==> q.items == old(q.items)[1..] && next.Some? == Playable(old(q.items)[0], present)
      ensures next.Some? ==> next.value == Kept(old(q.items)[..1], present)[0]
      ensures next.None? <==> cmd.None?
      ensures next.Some? ==>
        cmd == Some(DirectCommand(next.value.video, next.value.audio, present, UdpUrl(WslHost, udpPort, SmallPacketQuery)))
    {
      var x := q.Get();
      if x.None? || !Playable(x.value, present) {
        return None, None;
      }
      assert old(q.items)[..1] == [x.value];
      assert Kept(old(q.items)[..1], present) == Kept([], present) + [Clip(x.value.video, x.value.audio)];
      next := Some(Clip(x.value.video, x.value.audio));
      cmd := Some(DirectCommand(x.value.video, x.value.audio, present, UdpUrl(WslHost, udpPort, SmallPacketQuery)));
    }
  }
}
