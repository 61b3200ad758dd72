// The task-based streamer of agent/dh_streamer_async.py (`AsyncUDPStreamer`
// and its `UDPStreamer` wrapper) and the `AsyncStreamManager` of
// digital_human_integrated_async.py. The two worker threads are one loop
// iteration per call; the clock, `hash(video_path)`, `os.path.exists` and
// the ffmpeg processes (a failed spawn, what `poll()` returns, whether
// stderr can be read) are inputs. Times are whole milliseconds.

module StreamTasks {
  import opened Wrappers
  import opened PyText
  import opened PyQueue
  import opened Streamer

  datatype Status = Pending | Streaming | Completed | Failed | TimedOut

  /** The `error_message` of a task, by cause. */
  datatype Failure =
    | MissingVideo(path: string)
    | SpawnError(reason: string)
    | Stderr(text: string)
    | ExitCode(code: int)
    | StreamTimeout(seconds: int)

  /** `StreamTask` without its process handle: a task has a process exactly
    * when it was spawned. */
  datatype Task = Task(
    taskId: string,
    videoPath: string,
    audioPath: Option<string>,
    createdTime: int,
    status: Status,
    startTime: Option<int>,
    endTime: Option<int>,
    error: Option<Failure>)

  predicate Terminal(s: Status) {
    s == Completed || s == Failed || s == TimedOut
  }

  /** `f"stream_{int(time.time() * 1000)}_{hash(video_path) % 10000:04d}"`,
    * with Python's non-negative `%`. */
  function TaskId(millis: nat, pathHash: int): (id: string)
    ensures |id| > 7 && id[..7] == "stream_"
  {
    "stream_" + Digits(millis) + "_" + ZeroPad(pathHash % 10000, 4)
  }

  /** Two tasks get the same id exactly when they were added in the same
    * millisecond and their paths hash alike modulo 10000. */
  lemma TaskIdInjective(m1: nat, h1: int, m2: nat, h2: int)
    ensures TaskId(m1, h1) == TaskId(m2, h2) <==> m1 == m2 && h1 % 10000 == h2 % 10000
  {
    if TaskId(m1, h1) == TaskId(m2, h2) {
      var d1, d2 := Digits(m1), Digits(m2);
      assert '_' !in d1 && '_' !in d2 by {
        assert forall i :: 0 <= i < |d1| ==> IsDigit(d1[i]);
        assert forall i :: 0 <= i < |d2| ==> IsDigit(d2[i]);
      }
      FirstFieldInjective("stream_", d1, ZeroPad(h1 % 10000, 4), d2, ZeroPad(h2 % 10000, 4));
      ParseDigits(m1);
      ParseDigits(m2);
      ZeroPadInjective(h1 % 10000, h2 % 10000, 4);
    }
  }

  // ---------------------------------------------------------------------
  // What the threads do to one task

  /** `_start_stream_task`: a missing video or a failed spawn marks the task
    * FAILED; a spawned process makes it STREAMING from `now`. */
  function Launched(t: Task, present: string -> bool, spawnError: Option<string>, now: int): (r: Task)
    ensures r.taskId == t.taskId && r.videoPath == t.videoPath && r.audioPath == t.audioPath
    ensures r.createdTime == t.createdTime && r.endTime == t.endTime
    ensures r.status == Streaming <==> present(t.videoPath) && spawnError.None?
    ensures r.status == Streaming ==> r.startTime == Some(now) && r.error == t.error
    ensures r.status != Streaming ==> r.status == Failed && r.startTime == t.startTime && r.error.Some?
    ensures !present(t.videoPath) ==> r.error == Some(MissingVideo(t.videoPath))
  {
    if !present(t.videoPath) then t.(status := Failed, error := Some(MissingVideo(t.videoPath)))
    else if spawnError.Some? then t.(status := Failed, error := Some(SpawnError(spawnError.value)))
    else t.(status := Streaming, startTime := Some(now))
  }

  /** The monitor is done with a task whose process exited or that has run
    * for longer than `timeout` seconds. */
  predicate Finished(t: Task, now: int, exitCode: Option<int>, timeout: int)
    requires t.startTime.Some?
  {
    exitCode.Some? || now - t.startTime.value > timeout * 1000
  }

  /** `s[:n]` */
  function Prefix(s: string, n: nat): (r: string)
    ensures |r| <= n && r <= s
    ensures |s| <= n ==> r == s
  {
    if |s| <= n then s else s[..n]
  }

  /** The monitor's verdict on one streaming task: `exitCode` is what
    * `poll()` returned, `stderr` what `communicate` read (`None` when it
    * raised). */
  function Checked(t: Task, now: int, exitCode: Option<int>, stderr: Option<string>, timeout: int): (r: Task)
    requires t.status == Streaming && t.startTime.Some?
    ensures r.taskId == t.taskId && r.videoPath == t.videoPath && r.startTime == t.startTime
    ensures !Finished(t, now, exitCode, timeout) ==> r == t
    ensures Finished(t, now, exitCode, timeout) ==> Terminal(r.status) && r.endTime == Some(now)
    ensures r.status == Completed <==> exitCode == Some(0)
    ensures r.status == Failed <==> exitCode.Some? && exitCode.value != 0
    ensures r.status == TimedOut <==> exitCode.None? && now - t.startTime.value > timeout * 1000
    ensures r.status == Failed ==> r.error.Some? && (r.error.value.Stderr? || r.error.value == ExitCode(exitCode.value))
    ensures r.status == Failed && r.error.value.Stderr? ==>
      stderr.Some? && |r.error.value.text| <= 200 && r.error.value.text <= stderr.value
  {
    if exitCode.Some? then
      var t' := t.(endTime := Some(now));
      if exitCode.value == 0 then t'.(status := Completed)
      else if stderr.Some? then t'.(status := Failed, error := Some(Stderr(Prefix(stderr.value, 200))))
      else t'.(status := Failed, error := Some(ExitCode(exitCode.value)))
    else if now - t.startTime.value > timeout * 1000 then
      t.(status := TimedOut, endTime := Some(now), error := Some(StreamTimeout(timeout)))
    else t
  }

  /** The task map invariants: every task is filed under its own id, the
    * active ones are streaming and started, the completed ones are done. */
  ghost predicate ActiveOk(active: map<string, Task>) {
    forall k :: k in active ==> active[k].taskId == k && active[k].status == Streaming && active[k].startTime.Some?
  }

  ghost predicate CompletedOk(completed: map<string, Task>) {
    forall k :: k in completed ==> completed[k].taskId == k && Terminal(completed[k].status)
  }

  /** The monitor's verdicts: one for every active task that is done. */
  function Verdicts(active: map<string, Task>, now: int, exitCodes: string -> Option<int>,
                    stderrs: string -> Option<string>, timeout: int): (v: map<string, Task>)
    requires ActiveOk(active)
    ensures v.Keys <= active.Keys
  {
    map k | k in active && Finished(active[k], now, exitCodes(k), timeout)
      :: Checked(active[k], now, exitCodes(k), stderrs(k), timeout)
  }

  /** One pass of `_process_monitor`: the finished tasks leave the active
    * map with their verdicts and are filed (last write wins) among the
    * completed ones. */
  function Monitored(active: map<string, Task>, completed: map<string, Task>, now: int,
                     exitCodes: string -> Option<int>, stderrs: string -> Option<string>, timeout: int)
    : (map<string, Task>, map<string, Task>)
    requires ActiveOk(active)
  {
    var v := Verdicts(active, now, exitCodes, stderrs, timeout);
    (active - v.Keys, completed + v)
  }

  /** A monitor pass loses no task and never takes one out of the completed
    * map: an active task either stays untouched or is completed at `now`. */
  lemma MonitorKeepsTasks(active: map<string, Task>, completed: map<string, Task>, now: int,
                          exitCodes: string -> Option<int>, stderrs: string -> Option<string>, timeout: int)
    requires ActiveOk(active)
    ensures var (a, c) := Monitored(active, completed, now, exitCodes, stderrs, timeout);
      a.Keys <= active.Keys && completed.Keys <= c.Keys
      && a.Keys + c.Keys == active.Keys + completed.Keys
      && (forall k :: k in a ==> a[k] == active[k])
      && (forall k :: k in active && k !in a ==> k in c && Terminal(c[k].status) && c[k].endTime == Some(now))
  {
  }

  /** A monitor pass keeps the map invariants and does not grow the active
    * map. */
  lemma MonitorKeepsInvariants(active: map<string, Task>, completed: map<string, Task>, now: int,
                               exitCodes: string -> Option<int>, stderrs: string -> Option<string>, timeout: int)
    requires ActiveOk(active) && CompletedOk(completed)
    ensures var (a, c) := Monitored(active, completed, now, exitCodes, stderrs, timeout);
      ActiveOk(a) && CompletedOk(c) && |a| <= |active|
  {
    var v := Verdicts(active, now, exitCodes, stderrs, timeout);
    VerdictsAreDone(active, now, exitCodes, stderrs, timeout);
    assert CompletedOk(completed + v) by {
      forall k | k in completed + v
        ensures (completed + v)[k].taskId == k && Terminal((completed + v)[k].status)
      {
        if k in v { assert (completed + v)[k] == v[k]; } else { assert (completed + v)[k] == completed[k]; }
      }
    }
    var a := active - v.Keys;
    assert ActiveOk(a) by {
      forall k | k in a
        ensures a[k].taskId == k && a[k].status == Streaming && a[k].startTime.Some?
      {
        assert a[k] == active[k];
      }
    }
    SubsetCard(a.Keys, active.Keys);
  }

  /** Every verdict is a terminal task filed under its own id. */
  lemma VerdictsAreDone(active: map<string, Task>, now: int,
                        exitCodes: string -> Option<int>, stderrs: string -> Option<string>, timeout: int)
    requires ActiveOk(active)
    ensures CompletedOk(Verdicts(active, now, exitCodes, stderrs, timeout))
  {
    var v := Verdicts(active, now, exitCodes, stderrs, timeout);
    forall k | k in v
      ensures v[k].taskId == k && Terminal(v[k].status)
    {
      assert Finished(active[k], now, exitCodes(k), timeout);
    }
  }

  /** A map that agrees, key by key, with the verdicts is the verdicts. */
  lemma ScannedIsVerdicts(active: map<string, Task>, verdicts: map<string, Task>, now: int,
                          exitCodes: string -> Option<int>, stderrs: string -> Option<string>, timeout: int)
    requires ActiveOk(active)
    requires verdicts.Keys <= active.Keys
    requires forall k :: k in active ==> (k in verdicts <==> Finished(active[k], now, exitCodes(k), timeout))
    requires forall k :: k in verdicts ==> verdicts[k] == Checked(active[k], now, exitCodes(k), stderrs(k), timeout)
    ensures verdicts == Verdicts(active, now, exitCodes, stderrs, timeout)
  {
  }

  // ---------------------------------------------------------------------
  // AsyncUDPStreamer

  class AsyncStreamer {
    const hostIp: string
    const udpPort: int
    const streamLoop: bool
    const maxConcurrent: int
    const streamTimeout: int
    /** `stream_queue`: a `queue.Queue()` without a bound. */
    var pending: seq<Task>
    var activeTasks: map<string, Task>
    var completedTasks: map<string, Task>
    var isRunning: bool

    ghost predicate Valid()
      reads this
    {
      (forall i :: 0 <= i < |pending| ==> pending[i].status == Pending)
      && ActiveOk(activeTasks) && CompletedOk(completedTasks)
      && (|activeTasks| <= maxConcurrent || activeTasks == map[])
    }

    constructor (hostIp: string, udpPort: int, streamLoop: bool, maxConcurrent: int, streamTimeout: int)
      ensures Valid()
      ensures this.hostIp == hostIp && this.udpPort == udpPort && this.streamLoop == streamLoop
      ensures this.maxConcurrent == maxConcurrent && this.streamTimeout == streamTimeout
      ensures pending == [] && activeTasks == map[] && completedTasks == map[] && !isRunning
    {
      this.hostIp := hostIp;
      this.udpPort := udpPort;
      this.streamLoop := streamLoop;
      this.maxConcurrent := maxConcurrent;
      this.streamTimeout := streamTimeout;
      pending := [];
      activeTasks := map[];
      completedTasks := map[];
      isRunning := false;
    }

    /** `start`: a no-op when already running. */
    method Start() returns (started: bool)
      modifies this
      ensures started <==> !old(isRunning)
      ensures isRunning
      ensures pending == old(pending) && activeTasks == old(activeTasks) && completedTasks == old(completedTasks)
    {
      if isRunning {
        return false;
      }
      isRunning := true;
      started := true;
    }

    /** `stop`: the processes are killed, but no task changes status and
      * no map changes. */
    method Stop()
      modifies this
      ensures !isRunning
      ensures pending == old(pending) && activeTasks == old(activeTasks) && completedTasks == old(completedTasks)
    {
      isRunning := false;
    }

    /** `add_stream_task`: a PENDING task joins the queue and its id comes
      * back. The `queue.Full` branch needs a bounded queue, so it is never
      * taken. */
    method AddStreamTask(videoPath: string, audioPath: Option<string>, millis: nat, pathHash: int)
      returns (taskId: Option<string>)
      requires Valid()
      modifies this
      ensures Valid()
      ensures taskId == Some(TaskId(millis, pathHash))
      ensures pending == old(pending) + [Task(TaskId(millis, pathHash), videoPath, audioPath, millis, Pending, None, None, None)]
      ensures activeTasks == old(activeTasks) && completedTasks == old(completedTasks) && isRunning == old(isRunning)
    {
      var id := TaskId(millis, pathHash);
      var task := Task(id, videoPath, audioPath, millis, Pending, None, None, None);
      var ok := !IsFull(pending, 0);
      pending := OfferDropNewest(pending, 0, task);
      taskId := if ok then Some(id) else None;
    }

    /** `get_task_status`: the active map is consulted first. */
    function GetTaskStatus(taskId: string): (r: Option<Task>)
      reads this
      requires Valid()
      ensures r.None? <==> taskId !in activeTasks && taskId !in completedTasks
      ensures r.Some? ==> r.value.taskId == taskId
      ensures taskId in activeTasks ==> r == Some(activeTasks[taskId])
      ensures r.Some? && taskId !in activeTasks ==> Terminal(r.value.status)
    {
      if taskId in activeTasks then Some(activeTasks[taskId])
      else if taskId in completedTasks then Some(completedTasks[taskId])
      else None
    }

    /** `get_queue_info` */
    function QueueInfo(): (info: map<string, int>)
      reads this
    {
      map["queue_size" := |pending|, "active_tasks" := |activeTasks|,
          "completed_tasks" := |completedTasks|, "max_concurrent" := maxConcurrent]
    }

    function Url(): string
      reads this
    {
      UdpUrl(hostIp, udpPort, LowLatencyQuery)
    }

    /** `_start_stream_task`: the task is filed among the active tasks when
      * its process started and among the completed ones otherwise; the
      * command is built only for an existing video. */
    method StartStreamTask(t: Task, present: string -> bool, spawnError: Option<string>, now: int)
      returns (cmd: Option<seq<string>>)
      requires Valid() && t.status == Pending && |activeTasks| < maxConcurrent
      modifies this
      ensures Valid()
      ensures var r := Launched(t, present, spawnError, now);
        (r.status == Streaming ==>
           activeTasks == old(activeTasks)[t.taskId := r] && completedTasks == old(completedTasks))
        && (r.status != Streaming ==>
           completedTasks == old(completedTasks)[t.taskId := r] && activeTasks == old(activeTasks))
      ensures present(t.videoPath) <==> cmd.Some?
      ensures cmd.Some? ==> cmd.value == StreamCommand(t.videoPath, t.audioPath, present, streamLoop, Url())
      ensures pending == old(pending) && isRunning == old(isRunning)
    {
      var r := Launched(t, present, spawnError, now);
      if !present(t.videoPath) {
        completedTasks := completedTasks[t.taskId := r];
        return None;
      }
      cmd := Some(StreamCommand(t.videoPath, t.audioPath, present, streamLoop, Url()));
      if spawnError.Some? {
        completedTasks := completedTasks[t.taskId := r];
        return;
      }
      activeTasks := activeTasks[t.taskId := r];
    }

    /** One iteration of `_task_manager`: with room for another stream, the
      * oldest pending task is started; otherwise nothing changes. */
    method SchedulerStep(present: string -> bool, spawnError: Option<string>, now: int)
      returns (cmd: Option<seq<string>>)
      requires Valid()
      modifies this
      ensures Valid()
      ensures |old(activeTasks)| >= maxConcurrent || old(pending) == [] ==>
        pending == old(pending) && activeTasks == old(activeTasks) && completedTasks == old(completedTasks) && cmd.None?
      ensures |old(activeTasks)| < maxConcurrent && old(pending) != [] ==>
        pending == old(pending)[1..]
        && |activeTasks| <= |old(activeTasks)| + 1
        && var r := Launched(old(pending)[0], present, spawnError, now);
        (r.status == Streaming ==> activeTasks == old(activeTasks)[r.taskId := r] && completedTasks == old(completedTasks))
        && (r.status != Streaming ==> completedTasks == old(completedTasks)[r.taskId := r] && activeTasks == old(activeTasks))
      ensures isRunning == old(isRunning)
    {
      if |activeTasks| < maxConcurrent {
        if pending == [] {
          return None;
        }
        var t := pending[0];
        pending := pending[1..];
        cmd := StartStreamTask(t, present, spawnError, now);
      } else {
        cmd := None;
      }
    }

    /** One iteration of `_process_monitor`: every active task is checked,
      * then the finished ones are moved to the completed map. */
    method MonitorStep(now: int, exitCodes: string -> Option<int>, stderrs: string -> Option<string>)
      requires Valid()
      modifies this
      ensures Valid()
      ensures (activeTasks, completedTasks)
        == Monitored(old(activeTasks), old(completedTasks), now, exitCodes, stderrs, streamTimeout)
      ensures pending == old(pending) && isRunning == old(isRunning)
    {
      var verdicts := ScanActive(activeTasks, now, exitCodes, stderrs, streamTimeout);
      ScannedIsVerdicts(activeTasks, verdicts, now, exitCodes, stderrs, streamTimeout);
      var active, completed := MoveFinished(activeTasks, completedTasks, verdicts);
      MonitorKeepsInvariants(activeTasks, completedTasks, now, exitCodes, stderrs, streamTimeout);
      activeTasks, completedTasks := active, completed;
    }
  }

  /** The scan of `_process_monitor`: the verdict on every finished task. */
  method ScanActive(active: map<string, Task>, now: int, exitCodes: string -> Option<int>,
                    stderrs: string -> Option<string>, timeout: int)
    returns (verdicts: map<string, Task>)
    requires ActiveOk(active)
    ensures verdicts.Keys <= active.Keys
    ensures forall k :: k in active ==> (k in verdicts <==> Finished(active[k], now, exitCodes(k), timeout))
    ensures forall k :: k in verdicts ==> verdicts[k] == Checked(active[k], now, exitCodes(k), stderrs(k), timeout)
  {
    verdicts := map[];
    var unscanned := active.Keys;
    while unscanned != {}
      invariant unscanned <= active.Keys
      invariant verdicts.Keys <= active.Keys - unscanned
      invariant forall k :: k in active.Keys - unscanned ==>
        (k in verdicts <==> Finished(active[k], now, exitCodes(k), timeout))
      invariant forall k :: k in verdicts ==> verdicts[k] == Checked(active[k], now, exitCodes(k), stderrs(k), timeout)
      decreases |unscanned|
    {
      var k :| k in unscanned;
      var t := active[k];
      if exitCodes(k).Some? || now - t.startTime.value > timeout * 1000 {
        verdicts := verdicts[k := Checked(t, now, exitCodes(k), stderrs(k), timeout)];
      }
      unscanned := unscanned - {k};
    }
  }

  /** The move loop of `_process_monitor`: `active_tasks.pop(id)`, then
    * `completed_tasks[id] = task`, for every finished id. */
  method MoveFinished<K, V>(active0: map<K, V>, completed0: map<K, V>, verdicts: map<K, V>)
    returns (active: map<K, V>, completed: map<K, V>)
    ensures active == active0 - verdicts.Keys
    ensures completed == completed0 + verdicts
  {
    active, completed := active0, completed0;
    var moving := verdicts.Keys;
    MovedNone(active0, completed0, verdicts);
    while moving != {}
      invariant moving <= verdicts.Keys
      invariant active == active0 - (verdicts.Keys - moving)
      invariant completed == completed0 + Restrict(verdicts, verdicts.Keys - moving)
      decreases |moving|
    {
      var k :| k in moving;
      MoveOne(active0, completed0, verdicts, moving, k);
      active := active - {k};
      completed := completed[k := verdicts[k]];
      moving := moving - {k};
    }
    MovedAll(active0, completed0, verdicts);
  }

  /** The entries of `m` whose keys are in `s`. */
  function Restrict<K, V>(m: map<K, V>, s: set<K>): (r: map<K, V>)
    ensures r.Keys == m.Keys * s && forall k :: k in r ==> r[k] == m[k]
  {
    map k | k in m.Keys * s :: m[k]
  }

  lemma MovedNone<K, V>(active0: map<K, V>, completed0: map<K, V>, verdicts: map<K, V>)
    ensures active0 - (verdicts.Keys - verdicts.Keys) == active0
    ensures completed0 + Restrict(verdicts, verdicts.Keys - verdicts.Keys) == completed0
  {
    assert verdicts.Keys - verdicts.Keys == {};
  }

  lemma MovedAll<K, V>(active0: map<K, V>, completed0: map<K, V>, verdicts: map<K, V>)
    ensures active0 - (verdicts.Keys - {}) == active0 - verdicts.Keys
    ensures completed0 + Restrict(verdicts, verdicts.Keys - {}) == completed0 + verdicts
  {
    assert verdicts.Keys - {} == verdicts.Keys;
    assert Restrict(verdicts, verdicts.Keys) == verdicts;
  }

  /** Moving one more key. */
  lemma MoveOne<K, V>(active0: map<K, V>, completed0: map<K, V>, verdicts: map<K, V>, moving: set<K>, k: K)
    requires k in moving && moving <= verdicts.Keys
    ensures (active0 - (verdicts.Keys - moving)) - {k} == active0 - (verdicts.Keys - (moving - {k}))
    ensures (completed0 + Restrict(verdicts, verdicts.Keys - moving))[k := verdicts[k]]
      == completed0 + Restrict(verdicts, verdicts.Keys - (moving - {k}))
  {
    assert verdicts.Keys - (moving - {k}) == (verdicts.Keys - moving) + {k};
  }

  lemma {:induction false} SubsetCard(a: set<string>, b: set<string>)
    requires a <= b
    ensures |a| <= |b|
    decreases |b|
  {
    if a != {} {
      var x :| x in a;
      SubsetCard(a - {x}, b - {x});
    }
  }

  // ---------------------------------------------------------------------
  // The wrapper's queue processor

  /** The PENDING tasks for `clips`, the `i`-th added at `clock(i)`. */
  function PendingTasks(clips: seq<Clip>, clock: nat -> nat, hashOf: string -> int): (ts: seq<Task>)
    ensures |ts| == |clips|
    ensures forall i :: 0 <= i < |ts| ==>
      ts[i].status == Pending && ts[i].videoPath == clips[i].video && ts[i].taskId == TaskId(clock(i), hashOf(clips[i].video))
  {
    seq(|clips|, i requires 0 <= i < |clips| =>
      Task(TaskId(clock(i), hashOf(clips[i].video)), clips[i].video, clips[i].audio, clock(i), Pending, None, None, None))
  }

  lemma PendingTasksSnoc(clips: seq<Clip>, c: Clip, clock: nat -> nat, hashOf: string -> int)
    ensures PendingTasks(clips + [c], clock, hashOf) == PendingTasks(clips, clock, hashOf)
      + [Task(TaskId(clock(|clips|), hashOf(c.video)), c.video, c.audio, clock(|clips|), Pending, None, None, None)]
  {
  }

  /** `queue_processor` of the `UDPStreamer` wrapper: the video queue is
    * drained, and every playable pair becomes a stream task, in order. */
  method QueueProcessor(s: AsyncStreamer, q: Queue<Item>, present: string -> bool,
                        clock: nat -> nat, hashOf: string -> int)
    requires s.Valid() && q.Valid()
    modifies s, q
    ensures s.Valid() && q.Valid() && q.items == []
    ensures s.pending == old(s.pending) + PendingTasks(Kept(old(q.items), present), clock, hashOf)
    ensures s.activeTasks == old(s.activeTasks) && s.completedTasks == old(s.completedTasks)
  {
    ghost var q0 := q.items;
    ghost var p0 := s.pending;
    var added: nat := 0;
    ghost var i := 0;
    ghost var kept: seq<Clip> := [];
    while true
      invariant s.Valid() && q.Valid() && 0 <= i <= |q0| && q.items == q0[i..]
      invariant kept == Kept(q0[..i], present) && added == |kept|
      invariant s.pending == p0 + PendingTasks(kept, clock, hashOf)
      invariant s.activeTasks == old(s.activeTasks) && s.completedTasks == old(s.completedTasks)
      decreases |q.items|
    {
      var x := q.Get();
      if x.None? {
        assert q0[..i] == q0;
        return;
      }
      KeptStep(q0, i, present);
      if Playable(x.value, present) {
        var c := Clip(x.value.video, x.value.audio);
        ghost var before := s.pending;
        var _ := s.AddStreamTask(c.video, c.audio, clock(added), hashOf(c.video));
        EnqueueStep(p0, before, kept, c, clock, hashOf);
        kept := kept + [c];
        added := added + 1;
      }
      i := i + 1;
    }
  }

  /** One more playable pair handed to `add_stream_task`. */
  lemma EnqueueStep(p0: seq<Task>, pending: seq<Task>, kept: seq<Clip>, c: Clip,
                    clock: nat -> nat, hashOf: string -> int)
    requires pending == p0 + PendingTasks(kept, clock, hashOf)
    ensures pending + [Task(TaskId(clock(|kept|), hashOf(c.video)), c.video, c.audio, clock(|kept|), Pending, None, None, None)]
      == p0 + PendingTasks(kept + [c], clock, hashOf)
  {
    PendingTasksSnoc(kept, c, clock, hashOf);
  }

  /** One more item read from the queue. */
  lemma KeptStep(q0: seq<Item>, i: nat, present: string -> bool)
    requires i < |q0|
    ensures Kept(q0[..i + 1], present) == Kept(q0[..i], present)
      + (if Playable(q0[i], present) then [Clip(q0[i].video, q0[i].audio)] else [])
  {
    assert q0[..i + 1][..i] == q0[..i];
  }

  // ---------------------------------------------------------------------
  // AsyncStreamManager

  /** The statistics keys of `AsyncStreamManager`; only `total_tasks` is
    * ever updated. */
  function InitialStats(): (stats: map<string, int>) {
    map["total_tasks" := 0, "completed_tasks" := 0, "failed_tasks" := 0, "timeout_tasks" := 0]
  }

  class StreamManager {
    const maxQueueSize: int
    const streamTimeout: int
    const streamer: AsyncStreamer
    var stats: map<string, int>

    ghost predicate Valid()
      reads this, streamer
    {
      streamer.Valid() && streamer.maxConcurrent == 3 && streamer.streamTimeout == streamTimeout
      && stats.Keys == InitialStats().Keys && stats["total_tasks"] >= 0
      && stats["completed_tasks"] == 0 && stats["failed_tasks"] == 0 && stats["timeout_tasks"] == 0
    }

    /** `max_queue_size` is kept but never handed on; the streamer always
      * gets three concurrent streams. */
    constructor (hostIp: string, udpPort: int, streamLoop: bool, maxQueueSize: int, streamTimeout: int)
      ensures Valid() && fresh(streamer)
      ensures this.maxQueueSize == maxQueueSize && this.streamTimeout == streamTimeout
      ensures streamer.maxConcurrent == 3 && streamer.hostIp == hostIp && streamer.udpPort == udpPort
      ensures streamer.pending == [] && stats == InitialStats()
    {
      this.maxQueueSize := maxQueueSize;
      this.streamTimeout := streamTimeout;
      streamer := new AsyncStreamer(hostIp, udpPort, streamLoop, 3, streamTimeout);
      stats := InitialStats();
    }

    /** `add_stream_task`: `total_tasks` counts the ids that come back, which
      * is every call. */
    method AddStreamTask(videoPath: string, audioPath: Option<string>, millis: nat, pathHash: int)
      returns (taskId: Option<string>)
      requires Valid()
      modifies this, streamer
      ensures Valid()
      ensures taskId == Some(TaskId(millis, pathHash))
      ensures stats == old(stats)["total_tasks" := old(stats)["total_tasks"] + 1]
      ensures streamer.pending == old(streamer.pending)
        + [Task(TaskId(millis, pathHash), videoPath, audioPath, millis, Pending, None, None, None)]
      ensures streamer.activeTasks == old(streamer.activeTasks)
      ensures streamer.completedTasks == old(streamer.completedTasks)
    {
      taskId := streamer.AddStreamTask(videoPath, audioPath, millis, pathHash);
      if taskId.Some? && taskId.value != "" {
        stats := stats["total_tasks" := stats["total_tasks"] + 1];
      }
    }

    /** `get_queue_info` as written: the statistics overwrite the streamer's
      * entries of the same name. */
    function QueueInfo(): (info: map<string, int>)
      reads this, streamer
      ensures forall k :: k in info <==> k in streamer.QueueInfo() || k in stats
      ensures forall k :: k in stats ==> info[k] == stats[k]
    {
      streamer.QueueInfo() + stats
    }

    /** The overlay with the streamer's live counts taking precedence. */
    function QueueInfoFixed(): (info: map<string, int>)
      reads this, streamer
      ensures forall k :: k in info <==> k in streamer.QueueInfo() || k in stats
      ensures forall k :: k in streamer.QueueInfo() ==> info[k] == streamer.QueueInfo()[k]
    {
      stats + streamer.QueueInfo()
    }
  }

  /** As written, the manager reports no completed task, whatever the
    * streamer has completed. */
  lemma ReportsNoCompleted(m: StreamManager)
    requires m.Valid()
    ensures "completed_tasks" in m.QueueInfo() && m.QueueInfo()["completed_tasks"] == 0
    ensures m.streamer.completedTasks != map[] ==>
      m.QueueInfo()["completed_tasks"] != |m.streamer.completedTasks|
  {
  }

  /** With the overlay reversed, the report carries the streamer's count of
    * completed tasks next to the manager's total. */
  lemma FixedReportsCompleted(m: StreamManager)
    requires m.Valid()
    ensures m.QueueInfoFixed()["completed_tasks"] == |m.streamer.completedTasks|
    ensures m.QueueInfoFixed()["total_tasks"] == m.stats["total_tasks"]
    ensures m.QueueInfoFixed()["active_tasks"] == |m.streamer.activeTasks|
  {
  }
}
