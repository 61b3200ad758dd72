// The eight-row audio-feature window around a video frame
// (`get_audio_features`, identical in inference.py, inference_improved.py
// and datasetsss.py).

module FeatureWindow {

  /** One feature row; its inner shape does not matter to the window. */
  type Row = seq<real>

  function Min(a: int, b: int): int { if a <= b then a else b }
  function Max(a: int, b: int): int { if a >= b then a else b }

  predicate IsZeroRow(r: Row) { forall k :: 0 <= k < |r| ==> r[k] == 0.0 }

  /** `torch.zeros_like(rows)`: zero rows of the same shapes. */
  function ZerosLike(rows: seq<Row>): (z: seq<Row>)
    ensures |z| == |rows|
    ensures forall j :: 0 <= j < |z| ==> |z[j]| == |rows[j]| && IsZeroRow(z[j])
  {
    seq(|rows|, j requires 0 <= j < |rows| => seq(|rows[j]|, _ => 0.0))
  }

  /** Python's `xs[a:b]` for non-negative bounds: both are clamped to the
    * length, and a start past the end gives an empty slice. */
  function Slice<T>(xs: seq<T>, a: nat, b: nat): (r: seq<T>)
    ensures |r| == Max(0, Min(b, |xs|) - Min(a, |xs|))
    ensures forall k :: 0 <= k < |r| ==> r[k] == xs[a + k]
  {
    var lo := Min(a, |xs|);
    var hi := Max(lo, Min(b, |xs|));
    xs[lo..hi]
  }

  /** `get_audio_features(features, index)`. The padding is the zeros-like
    * of a prefix of what is already there, so it can be shorter than the
    * number of missing rows. */
  function GetAudioFeatures(features: seq<Row>, index: nat): (w: seq<Row>)
    ensures |w| <= 8
  {
    var left := index - 4;
    var right := index + 4;
    var padLeft := if left < 0 then -left else 0;
    var lo := if left < 0 then 0 else left;
    var padRight := if right > |features| then right - |features| else 0;
    var hi := if right > |features| then |features| else right;
    var auds := Slice(features, lo, hi);
    PadBack(PadFront(auds, padLeft), padRight)
  }

  /** `torch.cat([zeros_like(auds[:pad]), auds])` when `pad > 0`. */
  function PadFront(auds: seq<Row>, pad: int): (r: seq<Row>)
    ensures |r| == Min(Max(0, pad), |auds|) + |auds|
    ensures r[Min(Max(0, pad), |auds|)..] == auds
    ensures forall k :: 0 <= k < Min(Max(0, pad), |auds|) ==> IsZeroRow(r[k])
  {
    if pad > 0 then ZerosLike(Slice(auds, 0, pad)) + auds else auds
  }

  /** `torch.cat([rows, zeros_like(rows[:pad])])` when `pad > 0`. */
  function PadBack(rows: seq<Row>, pad: int): (r: seq<Row>)
    ensures |r| == |rows| + Min(Max(0, pad), |rows|)
    ensures r[..|rows|] == rows
    ensures forall k :: |rows| <= k < |r| ==> IsZeroRow(r[k])
  {
    if pad > 0 then rows + ZerosLike(Slice(rows, 0, pad)) else rows
  }

  /** The present rows `features[max(0, i-4) : min(len, i+4)]`. */
  function PresentRows(features: seq<Row>, index: nat): seq<Row> {
    Slice(features, Max(0, index - 4), Min(|features|, index + 4))
  }

  /** Number of zero rows in front: `min(pl, s)` with `pl = max(0, 4 - i)`. */
  function LeftPad(features: seq<Row>, index: nat): int {
    Min(Max(0, 4 - index), |PresentRows(features, index)|)
  }

  /** Number of zero rows behind: `min(pr, s + min(pl, s))` with `pr = max(0, i + 4 - len)`. */
  function RightPad(features: seq<Row>, index: nat): int {
    Min(Max(0, index + 4 - |features|), |PresentRows(features, index)| + LeftPad(features, index))
  }

  /** The window is the left zero rows, then the present rows in order, then
    * the right zero rows. */
  lemma WindowLayout(features: seq<Row>, index: nat)
    ensures |GetAudioFeatures(features, index)|
      == LeftPad(features, index) + |PresentRows(features, index)| + RightPad(features, index)
    ensures GetAudioFeatures(features, index)[LeftPad(features, index)..
      LeftPad(features, index) + |PresentRows(features, index)|] == PresentRows(features, index)
    ensures forall k :: 0 <= k < LeftPad(features, index) ==> IsZeroRow(GetAudioFeatures(features, index)[k])
    ensures var w := GetAudioFeatures(features, index);
      forall k :: LeftPad(features, index) + |PresentRows(features, index)| <= k < |w| ==> IsZeroRow(w[k])
  {
    var auds := PresentRows(features, index);
    var front, back := Max(0, 4 - index), Max(0, index + 4 - |features|);
    assert GetAudioFeatures(features, index) == PadBack(PadFront(auds, front), back);
    PaddedLayout(auds, front, back);
  }

  /** Padding in front and then behind keeps the rows in the middle. */
  lemma PaddedLayout(auds: seq<Row>, front: int, back: int)
    ensures var pl := Min(Max(0, front), |auds|);
      var w := PadBack(PadFront(auds, front), back);
      && |w| == pl + |auds| + Min(Max(0, back), |auds| + pl)
      && w[pl..pl + |auds|] == auds
      && (forall k :: 0 <= k < pl ==> IsZeroRow(w[k]))
      && (forall k :: pl + |auds| <= k < |w| ==> IsZeroRow(w[k]))
  {
    var pl := Min(Max(0, front), |auds|);
    var withLeft := PadFront(auds, front);
    var w := PadBack(withLeft, back);
    assert w[pl..pl + |auds|] == withLeft[pl..] by {
      assert w[..|withLeft|] == withLeft;
    }
    forall k | 0 <= k < pl
      ensures IsZeroRow(w[k])
    {
      assert w[k] == w[..|withLeft|][k] == withLeft[k];
    }
  }

  /** With at least four rows and an index inside the sequence no padding
    * is cut short. */
  lemma FullPadding(features: seq<Row>, index: nat)
    requires |features| >= 4 && index < |features|
    ensures LeftPad(features, index) == Max(0, 4 - index)
    ensures RightPad(features, index) == Max(0, index + 4 - |features|)
    ensures |PresentRows(features, index)| == Min(|features|, index + 4) - Max(0, index - 4)
  {
  }

  /** With at least four rows and an index inside the sequence the window
    * has exactly eight rows: row `k` is feature `index - 4 + k` when that
    * exists and a zero row otherwise. */
  lemma EightRows(features: seq<Row>, index: nat)
    requires |features| >= 4 && index < |features|
    ensures |GetAudioFeatures(features, index)| == 8
    ensures forall k :: 0 <= k < 8 && 0 <= index - 4 + k < |features| ==>
      GetAudioFeatures(features, index)[k] == features[index - 4 + k]
    ensures forall k :: 0 <= k < 8 && !(0 <= index - 4 + k < |features|) ==>
      IsZeroRow(GetAudioFeatures(features, index)[k])
  {
    WindowLayout(features, index);
    FullPadding(features, index);
    forall k | 0 <= k < 8
      ensures 0 <= index - 4 + k < |features| ==> GetAudioFeatures(features, index)[k] == features[index - 4 + k]
      ensures !(0 <= index - 4 + k < |features|) ==> IsZeroRow(GetAudioFeatures(features, index)[k])
    {
      WindowRow(features, index, k);
    }
  }

  /** Row `k` of a full window. */
  lemma WindowRow(features: seq<Row>, index: nat, k: nat)
    requires |features| >= 4 && index < |features| && k < 8
    ensures var w := GetAudioFeatures(features, index);
      && |w| == 8
      && (0 <= index - 4 + k < |features| ==> w[k] == features[index - 4 + k])
      && (!(0 <= index - 4 + k < |features|) ==> IsZeroRow(w[k]))
  {
    WindowLayout(features, index);
    FullPadding(features, index);
    LayoutRow(features, index, k, GetAudioFeatures(features, index), PresentRows(features, index), Max(0, 4 - index));
  }

  /** Row `k` of eight rows laid out as `pl` zero rows, the present rows
    * and zero rows again. */
  lemma LayoutRow(features: seq<Row>, index: nat, k: nat, w: seq<Row>, present: seq<Row>, pl: nat)
    requires index < |features| && k < 8 && |w| == 8
    requires pl == Max(0, 4 - index) && |present| == Min(|features|, index + 4) - Max(0, index - 4)
    requires pl + |present| <= |w| && w[pl..pl + |present|] == present
    requires forall j :: 0 <= j < |present| ==> present[j] == features[Max(0, index - 4) + j]
    requires forall j :: 0 <= j < pl ==> IsZeroRow(w[j])
    requires forall j :: pl + |present| <= j < |w| ==> IsZeroRow(w[j])
    ensures 0 <= index - 4 + k < |features| ==> w[k] == features[index - 4 + k]
    ensures !(0 <= index - 4 + k < |features|) ==> IsZeroRow(w[k])
  {
    var s := |present|;
    var lo := Max(0, index - 4);
    if index - 4 + k < 0 {
      assert k < pl;
    } else if index - 4 + k >= |features| {
      assert k >= pl + s;
    } else {
      var j := k - pl;
      assert 0 <= j < s && lo + j == index - 4 + k;
      assert w[k] == w[pl..pl + s][j];
    }
  }

  /** With only three rows the window at index 0 has seven rows, not eight:
    * four missing rows but only three present ones to copy the shape of. */
  lemma ShortWindow(features: seq<Row>)
    requires |features| == 3
    ensures |GetAudioFeatures(features, 0)| == 7
  {
    WindowLayout(features, 0);
  }
}
