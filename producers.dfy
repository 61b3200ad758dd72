// The script producers that feed the text queues of
// digital_human_optimized.py, digital_human_mp4_generator.py,
// digital_human_deepseek.py and digital_human_batch_generator.py, the
// start-up ("bootstrap") scripts, and the lock-protected counters that
// name generated files. Threads are modelled one step at a time: a counter
// update under `counter_lock` is one atomic step, and the `running` flag a
// producer reads before sentence `k` is `running(k)`.

module Producers {
  import opened Wrappers
  import opened PyText
  import opened PyQueue

  // ---------------------------------------------------------------------
  // Sentence producers

  /** `_script_generation_worker` of the optimized and MP4 generators, from
    * sentence `k` on: stop when the flag is down or at the first `Full`. */
  function EnqueuedFrom(items: seq<string>, maxSize: int, sentences: seq<string>, running: nat -> bool, k: nat)
    : (r: seq<string>)
    ensures |items| <= |r| && r[..|items|] == items
    decreases |sentences| - k
  {
    if k >= |sentences| || !running(k) || IsFull(items, maxSize) then items
    else EnqueuedFrom(items + [sentences[k]], maxSize, sentences, running, k + 1)
  }

  /** The DeepSeek producer tests the flag inside the loop: a sentence met
    * while the flag is down is skipped rather than ending the batch. */
  function EnqueuedWhileRunningFrom(items: seq<string>, maxSize: int, sentences: seq<string>, running: nat -> bool, k: nat)
    : seq<string>
    decreases |sentences| - k
  {
    if k >= |sentences| then items
    else if !running(k) then EnqueuedWhileRunningFrom(items, maxSize, sentences, running, k + 1)
    else if IsFull(items, maxSize) then items
    else EnqueuedWhileRunningFrom(items + [sentences[k]], maxSize, sentences, running, k + 1)
  }

  /** The loop of the optimized and MP4 producers. */
  method EnqueueUntilFull(q: Queue<string>, sentences: seq<string>, running: nat -> bool) returns (added: nat)
    requires q.Valid()
    modifies q
    ensures q.Valid()
    ensures q.items == EnqueuedFrom(old(q.items), q.maxSize, sentences, running, 0)
    ensures added <= |sentences| && q.items == old(q.items) + sentences[..added]
  {
    added := 0;
    while added < |sentences|
      invariant q.Valid() && added <= |sentences|
      invariant q.items == old(q.items) + sentences[..added]
      invariant EnqueuedFrom(q.items, q.maxSize, sentences, running, added)
        == EnqueuedFrom(old(q.items), q.maxSize, sentences, running, 0)
      decreases |sentences| - added
    {
      if !running(added) {
        break;
      }
      var ok := q.Put(sentences[added]);
      if !ok {
        break;
      }
      assert sentences[..added + 1] == sentences[..added] + [sentences[added]];
      added := added + 1;
    }
  }

  /** The loop of the DeepSeek producer. */
  method EnqueueWhileRunning(q: Queue<string>, sentences: seq<string>, running: nat -> bool)
    requires q.Valid()
    modifies q
    ensures q.Valid()
    ensures q.items == EnqueuedWhileRunningFrom(old(q.items), q.maxSize, sentences, running, 0)
  {
    var k := 0;
    while k < |sentences|
      invariant q.Valid() && k <= |sentences|
      invariant EnqueuedWhileRunningFrom(q.items, q.maxSize, sentences, running, k)
        == EnqueuedWhileRunningFrom(old(q.items), q.maxSize, sentences, running, 0)
    {
      if running(k) {
        var ok := q.Put(sentences[k]);
        if !ok {
          break;
        }
      }
      k := k + 1;
    }
  }

  /** The producer puts a prefix of the batch after what was queued, and it
    * stopped for a reason: the batch ran out, the flag was down, or the
    * queue was full. */
  lemma {:induction false} EnqueuedIsPrefix(items: seq<string>, maxSize: int, sentences: seq<string>,
                                            running: nat -> bool, k: nat)
    requires k <= |sentences|
    ensures var r := EnqueuedFrom(items, maxSize, sentences, running, k);
      var n := |r| - |items|;
      |r| >= |items| && k + n <= |sentences| && r == items + sentences[k..k + n]
      && (k + n == |sentences| || !running(k + n) || IsFull(r, maxSize))
      && forall j :: k <= j < k + n ==> running(j)
    decreases |sentences| - k
  {
    if !(k >= |sentences| || !running(k) || IsFull(items, maxSize)) {
      EnqueuedIsPrefix(items + [sentences[k]], maxSize, sentences, running, k + 1);
      var r := EnqueuedFrom(items, maxSize, sentences, running, k);
      var n := |r| - |items|;
      assert r == items + [sentences[k]] + sentences[k + 1..k + n];
      assert [sentences[k]] + sentences[k + 1..k + n] == sentences[k..k + n];
    }
  }

  /** The queue never holds more than its bound. */
  lemma {:induction false} EnqueuedFits(items: seq<string>, maxSize: int, sentences: seq<string>,
                                        running: nat -> bool, k: nat)
    requires Fits(items, maxSize)
    ensures Fits(EnqueuedFrom(items, maxSize, sentences, running, k), maxSize)
    decreases |sentences| - k
  {
    if !(k >= |sentences| || !running(k) || IsFull(items, maxSize)) {
      EnqueuedFits(items + [sentences[k]], maxSize, sentences, running, k + 1);
    }
  }

  /** Once the flag goes down it stays down (`stop` only clears it). */
  ghost predicate StaysDown(running: nat -> bool) {
    forall i, j :: i <= j && !running(i) ==> !running(j)
  }

  /** With a flag that stays down, the DeepSeek loop enqueues exactly what
    * the optimized loop does: the two ways of testing the flag differ only
    * if it could come back up. */
  lemma {:induction false} ProducersAgree(items: seq<string>, maxSize: int, sentences: seq<string>,
                                          running: nat -> bool, k: nat)
    requires StaysDown(running)
    ensures EnqueuedWhileRunningFrom(items, maxSize, sentences, running, k)
      == EnqueuedFrom(items, maxSize, sentences, running, k)
    decreases |sentences| - k
  {
    if k < |sentences| {
      if !running(k) {
        SkipsWhenDown(items, maxSize, sentences, running, k + 1, k);
      } else if !IsFull(items, maxSize) {
        ProducersAgree(items + [sentences[k]], maxSize, sentences, running, k + 1);
      }
    }
  }

  lemma {:induction false} SkipsWhenDown(items: seq<string>, maxSize: int, sentences: seq<string>,
                                         running: nat -> bool, k: nat, down: nat)
    requires StaysDown(running) && down < k && !running(down)
    ensures EnqueuedWhileRunningFrom(items, maxSize, sentences, running, k) == items
    decreases |sentences| - k
  {
    if k < |sentences| {
      assert !running(k);
      SkipsWhenDown(items, maxSize, sentences, running, k + 1, down);
    }
  }

  /** The flag that comes back up tells the two loops apart: the optimized
    * loop stops at the first `False`, the DeepSeek loop goes on. */
  lemma FlagBackUpDiffers()
    ensures var running := (k: nat) => k != 0;
      EnqueuedFrom([], 0, ["a", "b"], running, 0) == []
      && EnqueuedWhileRunningFrom([], 0, ["a", "b"], running, 0) == ["b"]
  {
    var running := (k: nat) => k != 0;
    assert EnqueuedWhileRunningFrom([], 0, ["a", "b"], running, 0)
      == EnqueuedWhileRunningFrom([], 0, ["a", "b"], running, 1);
    assert EnqueuedWhileRunningFrom([], 0, ["a", "b"], running, 1)
      == EnqueuedWhileRunningFrom(["b"], 0, ["a", "b"], running, 2);
  }

  // ---------------------------------------------------------------------
  // Bootstrap scripts (digital_human_optimized.py)

  /** The five start-up scripts, each led by the product information. */
  function BootstrapScripts(productInfo: string): (ss: seq<string>)
    ensures |ss| == 5 && forall k :: 0 <= k < 5 ==> productInfo <= ss[k]
  {
    [productInfo + "直播马上开始，福利多多，点击小黄车立刻抢购！",
     productInfo + "超值优惠限时开抢，喜欢的宝子抓紧下单！",
     productInfo + "现在下单立享超值优惠，数量有限先到先得！",
     productInfo + "这个价格真的太划算了，快点击小黄车抢购吧！",
     productInfo + "错过今天就没有这个价格了，赶紧加入购物车！"]
  }

  /** Each script is tried once with `put_nowait` and a failure is ignored,
    * so the queue ends with as many of them, in order, as fit. */
  method Bootstrap(q: Queue<string>, productInfo: string)
    requires q.Valid()
    modifies q
    ensures q.Valid()
    ensures q.items == Oldest(old(q.items) + BootstrapScripts(productInfo), q.maxSize)
  {
    var scripts := BootstrapScripts(productInfo);
    for k := 0 to |scripts|
      invariant q.Valid()
      invariant q.items == OfferAllDropNewest(old(q.items), q.maxSize, scripts[..k])
    {
      OfferAllDropNewestStep(old(q.items), q.maxSize, scripts, k);
      var _ := q.Put(scripts[k]);
    }
    WholePrefix(scripts);
    DropNewestKeepsOldest(old(q.items), q.maxSize, scripts);
  }

  // ---------------------------------------------------------------------
  // Batch producer (digital_human_batch_generator.py)

  /** The whole batch is one queue item; an empty batch is never queued and
    * a batch meeting a full queue is dropped. */
  method ProduceBatch(q: Queue<seq<string>>, sentences: seq<string>)
    requires q.Valid()
    modifies q
    ensures q.Valid()
    ensures sentences == [] ==> q.items == old(q.items)
    ensures sentences != [] ==> q.items == OfferDropNewest(old(q.items), q.maxSize, sentences)
  {
    if sentences != [] {
      var _ := q.Put(sentences);
    }
  }

  // ---------------------------------------------------------------------
  // Counters

  predicate IsUnderscore(c: char) { c == '_' }

  /** `generate_unique_id` of agent/dh_generator.py: the timestamp, the first
    * eight hex digits of the text's MD5, and the counter padded to three
    * digits. */
  function UniqueId(timestamp: string, textHash: string, counter: nat): (id: string)
    ensures |id| >= |timestamp| + |textHash| + 5 && id[..|timestamp|] == timestamp
    ensures forall j :: |id| - 3 <= j < |id| ==> IsDigit(id[j])
  {
    timestamp + "_" + textHash + "_" + ZeroPad(counter, 3)
  }

  /** The last `_`-separated field (`id.split('_')[-1]`). */
  function LastField(s: string): string {
    var fields := SplitWhere(s, IsUnderscore);
    fields[|fields| - 1]
  }

  /** The last field of a unique id is the padded counter, which reads back
    * as the counter. */
  lemma UniqueIdSuffix(timestamp: string, textHash: string, counter: nat)
    ensures LastField(UniqueId(timestamp, textHash, counter)) == ZeroPad(counter, 3)
    ensures ParseDecimal(LastField(UniqueId(timestamp, textHash, counter))) == counter
  {
    var pad := ZeroPad(counter, 3);
    var head := timestamp + "_" + textHash;
    assert UniqueId(timestamp, textHash, counter) == head + ['_'] + pad;
    SplitWhereAt(head, '_', pad, IsUnderscore);
    NoSeparatorOnePiece(pad, IsUnderscore);
    ZeroPadRoundTrip(counter, 3);
  }

  /** Successive ids carry strictly increasing suffixes. */
  lemma UniqueIdsIncrease(t1: string, h1: string, c1: nat, t2: string, h2: string, c2: nat)
    requires c1 < c2
    ensures LastField(UniqueId(t1, h1, c1)) == ZeroPad(c1, 3) && LastField(UniqueId(t2, h2, c2)) == ZeroPad(c2, 3)
    ensures ParseDecimal(LastField(UniqueId(t1, h1, c1))) < ParseDecimal(LastField(UniqueId(t2, h2, c2)))
  {
    UniqueIdSuffix(t1, h1, c1);
    UniqueIdSuffix(t2, h2, c2);
  }

  /** `{prefix}{counter:06d}_{ms % 100000}_{thread id % 1000}`: the base
    * name of the MP4 worker (prefix `digital_human_`) and of the batch
    * worker (prefix `batch_digital_human_`). */
  function BaseName(prefix: string, counter: nat, ms: nat, threadId: nat): (b: string)
    ensures |b| >= |prefix| + 10 && b[..|prefix|] == prefix
    ensures forall j :: |prefix| <= j < |prefix| + 6 ==> IsDigit(b[j])
  {
    prefix + ZeroPad(counter, 6) + "_" + Digits(ms % 100000) + "_" + Digits(threadId % 1000)
  }

  const Mp4Prefix := "digital_human_"
  const BatchPrefix := "batch_digital_human_"

  /** Base names with different counters differ, whatever the clock and
    * the thread id; the counter is the field right after the prefix. */
  lemma BaseNameInjective(prefix: string, a: nat, msA: nat, tidA: nat, b: nat, msB: nat, tidB: nat)
    requires BaseName(prefix, a, msA, tidA) == BaseName(prefix, b, msB, tidB)
    ensures a == b
  {
    var za, zb := ZeroPad(a, 6), ZeroPad(b, 6);
    NoUnderscore(za);
    NoUnderscore(zb);
    CounterFieldInjective(prefix, za, Digits(msA % 100000), Digits(tidA % 1000), zb, Digits(msB % 100000), Digits(tidB % 1000));
    ZeroPadInjective(a, b, 6);
  }

  /** The field between the prefix and the first `_` determines itself. */
  lemma CounterFieldInjective(prefix: string, za: string, ma: string, ta: string, zb: string, mb: string, tb: string)
    requires '_' !in za && '_' !in zb
    requires prefix + za + "_" + ma + "_" + ta == prefix + zb + "_" + mb + "_" + tb
    ensures za == zb
  {
    assert prefix + za + "_" + ma + "_" + ta == prefix + za + "_" + (ma + "_" + ta);
    assert prefix + zb + "_" + mb + "_" + tb == prefix + zb + "_" + (mb + "_" + tb);
    FirstFieldInjective(prefix, za, ma + "_" + ta, zb, mb + "_" + tb);
  }

  lemma NoUnderscore(z: string)
    requires forall i :: 0 <= i < |z| ==> IsDigit(z[i])
    ensures '_' !in z
  {
  }

  /** The counter kept under `counter_lock`, one per generator. */
  class FileCounter {
    var counter: nat

    constructor ()
      ensures counter == 0
    {
      counter := 0;
    }

    /** `generate_unique_id`: one increment, and the new value names the id. */
    method GenerateUniqueId(timestamp: string, textHash: string) returns (id: string)
      modifies this
      ensures counter == old(counter) + 1
      ensures id == UniqueId(timestamp, textHash, counter)
    {
      counter := counter + 1;
      id := UniqueId(timestamp, textHash, counter);
    }

    /** The MP4 and batch workers: one increment, and the new value names
      * the files. */
    method NextBaseName(prefix: string, ms: nat, threadId: nat) returns (baseName: string)
      modifies this
      ensures counter == old(counter) + 1
      ensures baseName == BaseName(prefix, counter, ms, threadId)
    {
      counter := counter + 1;
      baseName := BaseName(prefix, counter, ms, threadId);
    }
  }
}
