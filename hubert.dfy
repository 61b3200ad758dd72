// HuBERT feature-length bookkeeping: the long-audio chunking of
// `get_hubert_from_16k_speech`, the reconciliation with the expected frame
// count, `make_even_first_dim`, the (-1, 2, 1024) regrouping and the output
// path. The processor and the network stay opaque: `forward` is whatever
// the model returns for a window of samples, one row per frame.

module HubertChunks {
  import opened Wrappers
  import opened PyText

  const Kernel := 400
  const Stride := 320
  /** `clip_length = stride * 1000`. */
  const ClipLength := 320000
  /** Every chunk reaches `clip_length - stride + kernel` samples past its start. */
  const ChunkReach := 320080

  /** `speech` as `soundfile` returns it: one sample per frame, or one row
    * of channel samples per frame. */
  datatype Audio<S> = Mono(samples: seq<S>) | Channels(frames: seq<seq<S>>)

  /** `speech[:, 0]` for two-dimensional audio; a frame without channels
    * makes the index raise. */
  function FirstChannel<S>(a: Audio<S>): (r: Result<seq<S>>)
    ensures a.Mono? ==> r == Ok(a.samples)
    ensures a.Channels? ==> (r.Ok? <==> forall i :: 0 <= i < |a.frames| ==> a.frames[i] != [])
    ensures a.Channels? && r.Ok? ==>
      |r.value| == |a.frames| && forall i :: 0 <= i < |a.frames| ==> a.frames[i] != [] && r.value[i] == a.frames[i][0]
  {
    match a
    case Mono(s) => Ok(s)
    case Channels(fs) =>
      if forall i :: 0 <= i < |fs| ==> fs[i] != [] then Ok(seq(|fs|, i requires 0 <= i < |fs| => fs[i][0]))
      else Err(IndexError)
  }

  // ---------------------------------------------------------------------
  // Index arithmetic

  /** `num_iter`: the number of whole clips in `n` samples. */
  function NumIter(n: nat): (k: nat)
    ensures ClipLength * k <= n < ClipLength * (k + 1)
  {
    n / ClipLength
  }

  /** `expected_T`, with Python's floor division (negative below 80 samples). */
  function ExpectedT(n: nat): (e: int)
    ensures Stride * e <= n - (Kernel - Stride) < Stride * (e + 1)
  {
    (n - (Kernel - Stride)) / Stride
  }

  /** The `[start_idx, end_idx)` of chunk `i`. */
  function ChunkSpan(i: nat): (span: (nat, nat))
    ensures span.0 == ClipLength * i && span.1 == span.0 + ChunkReach
  {
    if i == 0 then (0, ClipLength - Stride + Kernel)
    else (ClipLength * i, ClipLength * i + (ClipLength - Stride + Kernel))
  }

  /** Consecutive chunks overlap by `Kernel - Stride` samples. */
  lemma ChunksOverlap(i: nat)
    ensures ChunkSpan(i + 1).0 == ChunkSpan(i).1 - (Kernel - Stride)
  {
  }

  /** The start of the tail: past the whole clips, or 0 without any. */
  function TailStart(n: nat): (start: nat)
    ensures start == ClipLength * NumIter(n) && start <= n && n - start < ClipLength
  {
    if NumIter(n) > 0 then ClipLength * NumIter(n) else 0
  }

  /** Every sample before the tail lies in one of the clip chunks. */
  lemma ChunksCoverClips(n: nat, k: nat)
    requires k < TailStart(n)
    ensures var i := k / ClipLength; i < NumIter(n) && ChunkSpan(i).0 <= k < ChunkSpan(i).1
  {
  }

  /** `x[:, start:end]`: Python clips both ends to the length. */
  function Window<S>(xs: seq<S>, span: (nat, nat)): (w: seq<S>)
    ensures span.0 <= span.1 <= |xs| ==> w == xs[span.0..span.1]
    ensures span.0 <= |xs| <= span.1 ==> w == xs[span.0..]
  {
    var lo := if span.0 <= |xs| then span.0 else |xs|;
    var hi := if span.1 <= |xs| then span.1 else |xs|;
    if lo <= hi then xs[lo..hi] else []
  }

  // ---------------------------------------------------------------------
  // The chunk loop, as values

  /** `res_lst` after the clip loop: the hidden states of the first `m` chunks. */
  function ChunkStates<S, R>(xs: seq<S>, forward: seq<S> -> seq<R>, m: nat): (ps: seq<seq<R>>)
    ensures |ps| == m
    ensures forall i :: 0 <= i < m ==> ps[i] == forward(Window(xs, ChunkSpan(i)))
  {
    seq(m, i requires 0 <= i < m => forward(Window(xs, ChunkSpan(i))))
  }

  /** Whether the tail is long enough to run the model on. */
  predicate TailUsed(n: nat) {
    n - TailStart(n) >= Kernel
  }

  /** `res_lst` when the loop and the tail are done. */
  function States<S, R>(xs: seq<S>, forward: seq<S> -> seq<R>): (ps: seq<seq<R>>)
    ensures |ps| == NumIter(|xs|) + (if TailUsed(|xs|) then 1 else 0)
  {
    ChunkStates(xs, forward, NumIter(|xs|))
      + (if TailUsed(|xs|) then [forward(xs[TailStart(|xs|)..])] else [])
  }

  /** Nothing reaches the model from fewer than `Kernel` samples; from
    * `Kernel` samples on, something always does. */
  lemma StatesEmptyIff<S, R>(xs: seq<S>, forward: seq<S> -> seq<R>)
    ensures States(xs, forward) == [] <==> |xs| < Kernel
  {
    if NumIter(|xs|) == 0 {
      assert TailStart(|xs|) == 0;
    }
  }

  /** `torch.cat(res_lst, dim=0)`. */
  function Cat<R>(ps: seq<seq<R>>): (rows: seq<R>)
    decreases |ps|
  {
    if ps == [] then [] else Cat(ps[..|ps| - 1]) + ps[|ps| - 1]
  }

  lemma {:induction false} CatAppend<R>(ps: seq<seq<R>>, qs: seq<seq<R>>)
    ensures Cat(ps + qs) == Cat(ps) + Cat(qs)
    decreases |qs|
  {
    if qs == [] {
      assert ps + qs == ps;
    } else {
      assert (ps + qs)[..|ps + qs| - 1] == ps + qs[..|qs| - 1];
      CatAppend(ps, qs[..|qs| - 1]);
    }
  }

  /** `x[:e]` with Python's reading of a negative `e`. */
  function Head<R>(rows: seq<R>, e: int): (r: seq<R>)
    ensures 0 <= e <= |rows| ==> r == rows[..e]
    ensures e > |rows| ==> r == rows
    ensures e < 0 ==> |r| == if |rows| + e >= 0 then |rows| + e else 0
    ensures r <= rows
  {
    if e >= 0 then (if e <= |rows| then rows[..e] else rows)
    else if |rows| + e >= 0 then rows[..|rows| + e] else []
  }

  /** `k` zero rows, as `torch.nn.functional.pad` appends them. */
  function ZeroRows<R>(zero: R, k: nat): (r: seq<R>)
    ensures |r| == k && forall i :: 0 <= i < k ==> r[i] == zero
  {
    seq(k, i => zero)
  }

  /** The reconciliation with `expected_T`: within one frame of `expected`
    * the result has exactly `expected` rows, the original ones first, then
    * zero rows; further away it is the input. */
  function Reconcile<R>(rows: seq<R>, expected: int, zero: R): (r: seq<R>)
    ensures -1 <= |rows| - expected <= 1 && expected >= 0 ==> |r| == expected
    ensures forall i :: 0 <= i < |r| && i < |rows| ==> r[i] == rows[i]
    ensures forall i :: |rows| <= i < |r| ==> r[i] == zero
    ensures !(-1 <= |rows| - expected <= 1) ==> r == rows
  {
    if -1 <= |rows| - expected <= 1 then
      if |rows| < expected then rows + ZeroRows(zero, expected - |rows|) else Head(rows, expected)
    else rows
  }

  /** `get_hubert_from_16k_speech` on the processor's `input_values`:
    * `torch.cat` of an empty list raises. */
  function HubertFromSpeech<S, R>(xs: seq<S>, forward: seq<S> -> seq<R>, zero: R): (r: Result<seq<R>>)
    ensures r.Err? <==> |xs| < Kernel
    ensures r.Ok? ==> r.value == Reconcile(Cat(States(xs, forward)), ExpectedT(|xs|), zero)
  {
    StatesEmptyIff(xs, forward);
    var ps := States(xs, forward);
    if ps == [] then Err(RuntimeError("torch.cat(): expected a non-empty list of Tensors"))
    else Ok(Reconcile(Cat(ps), ExpectedT(|xs|), zero))
  }

  /** The chunk loop as the script runs it: `res_lst` grows one chunk at a
    * time, then takes the tail. */
  method ExtractHubert<S, R>(xs: seq<S>, forward: seq<S> -> seq<R>, zero: R) returns (r: Result<seq<R>>)
    ensures r == HubertFromSpeech(xs, forward, zero)
  {
    var numIter := |xs| / ClipLength;
    var expected := (|xs| - (Kernel - Stride)) / Stride;
    var states: seq<seq<R>> := [];
    var i := 0;
    while i < numIter
      invariant 0 <= i <= numIter
      invariant states == ChunkStates(xs, forward, i)
    {
      var startIdx, endIdx;
      if i == 0 {
        startIdx, endIdx := 0, ClipLength - Stride + Kernel;
      } else {
        startIdx := ClipLength * i;
        endIdx := startIdx + (ClipLength - Stride + Kernel);
      }
      assert (startIdx, endIdx) == ChunkSpan(i);
      ChunkStatesSnoc(xs, forward, i);
      states := states + [forward(Window(xs, (startIdx, endIdx)))];
      i := i + 1;
    }
    var tail := if numIter > 0 then xs[ClipLength * numIter..] else xs;
    if |tail| >= Kernel {
      states := states + [forward(tail)];
    }
    assert states == States(xs, forward);
    assert expected == ExpectedT(|xs|);
    StatesEmptyIff(xs, forward);
    if states == [] {
      r := Err(RuntimeError("torch.cat(): expected a non-empty list of Tensors"));
    } else {
      r := Ok(Reconcile(Cat(states), expected, zero));
    }
  }

  // ---------------------------------------------------------------------
  // The frame count of an ideal model

  /** The convolutional front end's frame count for `n` samples. */
  ghost predicate IdealForward<S(!new), R>(forward: seq<S> -> seq<R>) {
    forall x: seq<S> :: |x| >= Kernel ==> |forward(x)| == (|x| - (Kernel - Stride)) / Stride
  }

  /** How far the first `m` chunks reach into `n` samples. */
  function Reach(n: nat, m: nat): (r: nat)
    ensures r <= n
  {
    if ClipLength * m + (Kernel - Stride) <= n then ClipLength * m + (Kernel - Stride) else n
  }

  lemma DivShift(x: int, c: int)
    ensures (x + Stride * c) / Stride == x / Stride + c
  {
    var q, r := x / Stride, x % Stride;
    assert x + Stride * c == Stride * (q + c) + r;
  }

  /** The frame count of chunk `m - 1` added to that of the earlier ones. */
  lemma ChunkRowsStep(n: nat, m: nat)
    requires 1 <= m && ClipLength * m <= n
    ensures (Reach(n, m) - (Kernel - Stride)) / Stride
      == (if m > 1 then (Reach(n, m - 1) - (Kernel - Stride)) / Stride else 0)
       + (Reach(n, m) - ClipLength * (m - 1) - (Kernel - Stride)) / Stride
  {
    DivShift(Reach(n, m) - ClipLength * (m - 1) - (Kernel - Stride), 1000 * (m - 1));
    if m > 1 {
      assert Reach(n, m - 1) == ClipLength * (m - 1) + (Kernel - Stride);
      DivShift(0, 1000 * (m - 1));
    }
  }

  /** `expected_T` split into the frames of the clip chunks and of the tail. */
  lemma ExpectedSplit(n: nat)
    requires n >= Kernel
    ensures ExpectedT(n)
      == (if NumIter(n) > 0 then (Reach(n, NumIter(n)) - (Kernel - Stride)) / Stride else 0)
       + (if TailUsed(n) then (n - TailStart(n) - (Kernel - Stride)) / Stride else 0)
  {
    var k := NumIter(n);
    var t := n - ClipLength * k;
    if k > 0 && t >= Kernel - Stride {
      assert Reach(n, k) == ClipLength * k + (Kernel - Stride);
      DivShift(t - (Kernel - Stride), 1000 * k);
      DivShift(0, 1000 * k);
    }
  }

  /** The window of clip chunk `m - 1` ends at `Reach(n, m)`. */
  lemma ChunkWindow<S>(xs: seq<S>, m: nat)
    requires 1 <= m <= NumIter(|xs|)
    ensures var w := Window(xs, ChunkSpan(m - 1));
      |w| == Reach(|xs|, m) - ClipLength * (m - 1) && |w| >= Kernel
  {
    var base := ClipLength * (m - 1);
    assert base + ClipLength == ClipLength * m;
  }

  lemma IdealRows<S(!new), R>(forward: seq<S> -> seq<R>, x: seq<S>)
    requires IdealForward(forward) && |x| >= Kernel
    ensures |forward(x)| == (|x| - (Kernel - Stride)) / Stride
  {
  }

  /** The rows an ideal front end gives for clip chunk `m - 1`. */
  lemma ChunkFrames<S(!new), R>(xs: seq<S>, forward: seq<S> -> seq<R>, m: nat)
    requires IdealForward(forward) && 1 <= m <= NumIter(|xs|)
    ensures |forward(Window(xs, ChunkSpan(m - 1)))|
      == (Reach(|xs|, m) - ClipLength * (m - 1) - (Kernel - Stride)) / Stride
  {
    ChunkWindow(xs, m);
    IdealRows(forward, Window(xs, ChunkSpan(m - 1)));
  }

  /** The rows of the first `m` chunks number the frames up to `Reach(n, m)`. */
  lemma {:induction false} ChunkRows<S(!new), R>(xs: seq<S>, forward: seq<S> -> seq<R>, m: nat)
    requires IdealForward(forward) && 1 <= m <= NumIter(|xs|)
    ensures |Cat(ChunkStates(xs, forward, m))| == (Reach(|xs|, m) - (Kernel - Stride)) / Stride
  {
    var prev := ChunkStates(xs, forward, m - 1);
    var last := forward(Window(xs, ChunkSpan(m - 1)));
    ChunkStatesSnoc(xs, forward, m - 1);
    CatSnoc(prev, last);
    var before, rows := |Cat(prev)|, |last|;
    ChunkFrames(xs, forward, m);
    if m > 1 {
      ChunkRows(xs, forward, m - 1);
    } else {
      assert prev == [];
    }
    RowsAdd(|xs|, m, before, rows);
  }

  /** The arithmetic of one step of `ChunkRows`. */
  lemma RowsAdd(n: nat, m: nat, before: int, rows: int)
    requires 1 <= m <= NumIter(n)
    requires before == if m > 1 then (Reach(n, m - 1) - (Kernel - Stride)) / Stride else 0
    requires rows == (Reach(n, m) - ClipLength * (m - 1) - (Kernel - Stride)) / Stride
    ensures before + rows == (Reach(n, m) - (Kernel - Stride)) / Stride
  {
    assert ClipLength * m <= n;
    ChunkRowsStep(n, m);
  }

  lemma ChunkStatesSnoc<S, R>(xs: seq<S>, forward: seq<S> -> seq<R>, m: nat)
    ensures ChunkStates(xs, forward, m + 1) == ChunkStates(xs, forward, m) + [forward(Window(xs, ChunkSpan(m)))]
  {
  }

  lemma CatSnoc<R>(ps: seq<seq<R>>, p: seq<R>)
    ensures |Cat(ps + [p])| == |Cat(ps)| + |p|
  {
    assert (ps + [p])[..|ps|] == ps;
  }

  /** With an ideal model the concatenated states already have
    * `expected_T` rows, so the reconciliation changes nothing. */
  lemma IdealCountIsExpected<S(!new), R>(xs: seq<S>, forward: seq<S> -> seq<R>, zero: R)
    requires IdealForward(forward) && |xs| >= Kernel
    ensures |Cat(States(xs, forward))| == ExpectedT(|xs|)
    ensures HubertFromSpeech(xs, forward, zero) == Ok(Cat(States(xs, forward)))
  {
    var n := |xs|;
    var k := NumIter(n);
    var chunks := ChunkStates(xs, forward, k);
    var tail: seq<seq<R>> := if TailUsed(n) then [forward(xs[TailStart(n)..])] else [];
    assert States(xs, forward) == chunks + tail;
    CatAppend(chunks, tail);
    if k > 0 {
      ChunkRows(xs, forward, k);
    } else {
      assert chunks == [];
    }
    if TailUsed(n) {
      CatSnoc([], forward(xs[TailStart(n)..]));
      IdealRows(forward, xs[TailStart(n)..]);
    }
    ExpectedSplit(n);
    ReconcileExact(Cat(States(xs, forward)), ExpectedT(n), zero);
  }

  lemma ReconcileExact<R>(rows: seq<R>, expected: int, zero: R)
    requires |rows| == expected
    ensures Reconcile(rows, expected, zero) == rows
  {
    assert rows[..expected] == rows;
  }

  // ---------------------------------------------------------------------
  // make_even_first_dim, the pair reshape and the output path

  /** `make_even_first_dim`: drop the last row of an odd count. */
  function MakeEven<R>(rows: seq<R>): (r: seq<R>)
    ensures |r| % 2 == 0 && r <= rows
    ensures |rows| - |r| == (if |rows| % 2 == 1 then 1 else 0)
  {
    if |rows| % 2 == 1 then rows[..|rows| - 1] else rows
  }

  /** `reshape(-1, 2, 1024)` on rows of 1024: consecutive rows in pairs. */
  function Pairs<R>(rows: seq<R>): (ps: seq<(R, R)>)
    requires |rows| % 2 == 0
    ensures |ps| * 2 == |rows|
    ensures forall i :: 0 <= i < |ps| ==> ps[i] == (rows[2 * i], rows[2 * i + 1])
  {
    seq(|rows| / 2, i requires 0 <= i < |rows| / 2 => (rows[2 * i], rows[2 * i + 1]))
  }

  /** Reading the pairs row by row. */
  function Unpair<R>(ps: seq<(R, R)>): (rows: seq<R>)
    ensures |rows| == 2 * |ps|
  {
    if ps == [] then [] else [ps[0].0, ps[0].1] + Unpair(ps[1..])
  }

  lemma {:induction false} UnpairIndex<R>(ps: seq<(R, R)>, i: nat)
    requires i < |ps|
    ensures Unpair(ps)[2 * i] == ps[i].0 && Unpair(ps)[2 * i + 1] == ps[i].1
    decreases i
  {
    if i > 0 {
      UnpairIndex(ps[1..], i - 1);
    }
  }

  /** The regrouping loses and reorders nothing. */
  lemma PairsRoundTrip<R>(rows: seq<R>)
    requires |rows| % 2 == 0
    ensures Unpair(Pairs(rows)) == rows
  {
    var ps := Pairs(rows);
    forall j | 0 <= j < |rows|
      ensures Unpair(ps)[j] == rows[j]
    {
      UnpairIndex(ps, j / 2);
    }
  }

  /** `wav_name.replace('.wav', '_hu.npy')`. */
  function OutputPath(wav: string): (out: string)
    ensures |out| >= |wav|
  {
    ReplaceAll(wav, ".wav", "_hu.npy")
  }

  /** A name without ".wav" is its own output path. */
  lemma OutputPathNoWav(wav: string)
    requires !Contains(wav, ".wav")
    ensures OutputPath(wav) == wav
  {
    ReplaceAllNoMatch(wav, ".wav", "_hu.npy");
  }

  /** A name whose only ".wav" is its suffix gets the feature suffix instead. */
  lemma OutputPathSuffix(stem: string)
    requires !Contains(stem, ".wav")
    ensures OutputPath(stem + ".wav") == stem + "_hu.npy"
  {
    ReplaceWavSuffix(stem);
  }

  /** `main` after reading: the even-length features, in pairs. `normalise`
    * is the `wav2vec2_processor(...).input_values` step, which turns the
    * first channel into the model's input samples. */
  function SavedFeatures<S, R>(speech: Audio<S>, normalise: seq<S> -> seq<S>, forward: seq<S> -> seq<R>, zero: R): (r: Result<seq<(R, R)>>)
    ensures r.Ok? ==> FirstChannel(speech).Ok? && HubertFromSpeech(normalise(FirstChannel(speech).value), forward, zero).Ok?
    ensures r.Ok? ==> Unpair(r.value) == MakeEven(HubertFromSpeech(normalise(FirstChannel(speech).value), forward, zero).value)
  {
    match FirstChannel(speech)
    case Err(e) => Err(e)
    case Ok(xs) =>
      match HubertFromSpeech(normalise(xs), forward, zero)
      case Err(e) => Err(e)
      case Ok(rows) =>
        PairsRoundTrip(MakeEven(rows));
        Ok(Pairs(MakeEven(rows)))
  }
}

// simple_hubert.py: MFCC features widened to HuBERT's 1024 columns.
module SimpleHubert {
  import opened Wrappers
  import opened HubertChunks

  const NMfcc := 13
  const Width := 1024
  const RepeatFactor := Width / NMfcc
  const Remainder := Width % NMfcc

  /** `row` written `k` times. */
  function Tile<T>(row: seq<T>, k: nat): (r: seq<T>)
    ensures |r| == k * |row|
    decreases k
  {
    if k == 0 then [] else Tile(row, k - 1) + row
  }

  lemma {:induction false} TileIndex<T>(row: seq<T>, k: nat, j: nat)
    requires |row| == NMfcc && j < k * NMfcc
    ensures Tile(row, k)[j] == row[j % NMfcc]
    decreases k
  {
    if j < (k - 1) * NMfcc {
      TileIndex(row, k - 1, j);
    } else {
      assert j % NMfcc == j - (k - 1) * NMfcc;
    }
  }

  /** One MFCC row widened: `np.tile` to 1014 columns, then the first 10. */
  function Widen<T>(row: seq<T>): (r: seq<T>)
    requires |row| == NMfcc
    ensures |r| == Width
  {
    var tiled := Tile(row, RepeatFactor);
    if Remainder > 0 then tiled + row[..Remainder] else tiled
  }

  /** Column j of a widened row is coefficient `j mod 13` up to column 1014
    * and coefficient `j - 1014` after it. */
  lemma WidenColumns<T>(row: seq<T>, j: nat)
    requires |row| == NMfcc && j < Width
    ensures j < RepeatFactor * NMfcc ==> Widen(row)[j] == row[j % NMfcc]
    ensures j >= RepeatFactor * NMfcc ==> Widen(row)[j] == row[j - RepeatFactor * NMfcc]
  {
    if j < RepeatFactor * NMfcc {
      TileIndex(row, RepeatFactor, j);
    }
  }

  /** `extract_simple_audio_features` after the MFCC call: widened,
    * truncated to an even count, and paired. */
  function SimpleFeatures<T>(mfccT: seq<seq<T>>): (r: seq<(seq<T>, seq<T>)>)
    requires forall i :: 0 <= i < |mfccT| ==> |mfccT[i]| == NMfcc
    ensures |r| == |mfccT| / 2
    ensures forall i :: 0 <= i < |r| ==> r[i] == (Widen(mfccT[2 * i]), Widen(mfccT[2 * i + 1]))
  {
    var wide := seq(|mfccT|, i requires 0 <= i < |mfccT| => Widen(mfccT[i]));
    Pairs(MakeEven(wide))
  }

  /** Every saved row is 1024 wide, and the frames come in order, the last
    * one of an odd count dropped. */
  lemma SimpleFeaturesShape<T>(mfccT: seq<seq<T>>)
    requires forall i :: 0 <= i < |mfccT| ==> |mfccT[i]| == NMfcc
    ensures var r := SimpleFeatures(mfccT);
      && (forall i :: 0 <= i < |r| ==> |r[i].0| == Width && |r[i].1| == Width)
      && 2 * |r| == |mfccT| - |mfccT| % 2
  {
  }

  /** The stereo handling and the output path are the HuBERT script's. */
  function SimpleSaved<T>(audio: Audio<T>, mfcc: seq<T> -> seq<seq<T>>): (r: Result<seq<(seq<T>, seq<T>)>>)
    ensures r.Ok? ==> FirstChannel(audio).Ok? && |r.value| == |mfcc(FirstChannel(audio).value)| / 2
    ensures r.Err? ==> (FirstChannel(audio).Err? ||
      exists i :: 0 <= i < |mfcc(FirstChannel(audio).value)| && |mfcc(FirstChannel(audio).value)[i]| != NMfcc)
  {
    match FirstChannel(audio)
    case Err(e) => Err(e)
    case Ok(xs) =>
      var m := mfcc(xs);
      if forall i :: 0 <= i < |m| ==> |m[i]| == NMfcc then Ok(SimpleFeatures(m))
      else Err(ValueError("cannot reshape array into shape (-1, 2, 1024)"))
  }
}
