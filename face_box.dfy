// The square face crop computed from the landmarks (inference.py,
// inference_improved.py; datasetsss.py and the generated scripts use the
// same arithmetic).

module FaceBox {
  import opened Wrappers
  import opened Landmarks

  /** A crop rectangle `img[ymin:ymax, xmin:xmax]`. */
  datatype Box = Box(xmin: int, ymin: int, xmax: int, ymax: int)

  function Max(a: int, b: int): int { if a >= b then a else b }
  function Min(a: int, b: int): int { if a <= b then a else b }

  /** `np.min(all_x)` */
  function MinX(pts: seq<Point>): (r: int)
    requires |pts| > 0
    ensures forall k :: 0 <= k < |pts| ==> r <= pts[k].x
    decreases |pts|
  {
    if |pts| == 1 then pts[0].x else Min(pts[0].x, MinX(pts[1..]))
  }

  /** `np.max(all_x)` */
  function MaxX(pts: seq<Point>): (r: int)
    requires |pts| > 0
    ensures forall k :: 0 <= k < |pts| ==> pts[k].x <= r
    decreases |pts|
  {
    if |pts| == 1 then pts[0].x else Max(pts[0].x, MaxX(pts[1..]))
  }

  /** `np.min(all_y)` */
  function MinY(pts: seq<Point>): (r: int)
    requires |pts| > 0
    ensures forall k :: 0 <= k < |pts| ==> r <= pts[k].y
    decreases |pts|
  {
    if |pts| == 1 then pts[0].y else Min(pts[0].y, MinY(pts[1..]))
  }

  /** `np.max(all_y)` */
  function MaxY(pts: seq<Point>): (r: int)
    requires |pts| > 0
    ensures forall k :: 0 <= k < |pts| ==> pts[k].y <= r
    decreases |pts|
  {
    if |pts| == 1 then pts[0].y else Max(pts[0].y, MaxY(pts[1..]))
  }

  /** Each extreme is the coordinate of some landmark. */
  lemma {:induction false} ExtremesAttained(pts: seq<Point>) returns (i: nat, j: nat, p: nat, q: nat)
    requires |pts| > 0
    ensures i < |pts| && j < |pts| && p < |pts| && q < |pts|
    ensures pts[i].x == MinX(pts) && pts[j].x == MaxX(pts)
    ensures pts[p].y == MinY(pts) && pts[q].y == MaxY(pts)
    decreases |pts|
  {
    if |pts| == 1 {
      i, j, p, q := 0, 0, 0, 0;
    } else {
      var i', j', p', q' := ExtremesAttained(pts[1..]);
      i := if pts[0].x <= MinX(pts[1..]) then 0 else i' + 1;
      j := if pts[0].x >= MaxX(pts[1..]) then 0 else j' + 1;
      p := if pts[0].y <= MinY(pts[1..]) then 0 else p' + 1;
      q := if pts[0].y >= MaxY(pts[1..]) then 0 else q' + 1;
    }
  }

  /** `int(size * 1.2)` for a non-negative integer size. */
  function Enlarge(size: int): int { 6 * size / 5 }

  /** The square before clipping: side `int(1.2 * max(width, height))`,
    * centred with floor division on the landmarks' bounding box. */
  function SquareBox(pts: seq<Point>): Box
    requires |pts| > 0
  {
    SquareAround(MinX(pts), MinY(pts), MaxX(pts), MaxY(pts))
  }

  function SquareAround(x0: int, y0: int, x1: int, y1: int): Box {
    var width := x1 - x0;
    var height := y1 - y0;
    var size := Enlarge(Max(width, height));
    var cx := (x0 + x1) / 2;
    var cy := (y0 + y1) / 2;
    var xmin := cx - size / 2;
    var ymin := cy - size / 2;
    Box(xmin, ymin, xmin + size, ymin + size)
  }

  /** Clipping to the image: `max(0, ·)` on the low corner, `min(img_w, ·)`
    * and `min(img_h, ·)` on the high one. */
  function ClipBox(b: Box, imgW: nat, imgH: nat): Box {
    Box(Max(0, b.xmin), Max(0, b.ymin), Min(imgW, b.xmax), Min(imgH, b.ymax))
  }

  /** The crop of a frame, or `None` when the clipped box has no width or no
    * height (the "Invalid crop dimensions" skip). */
  function CropBox(pts: seq<Point>, imgW: nat, imgH: nat): (r: Option<Box>)
    requires |pts| > 0
    ensures r.Some? ==> 0 <= r.value.xmin < r.value.xmax <= imgW && 0 <= r.value.ymin < r.value.ymax <= imgH
    ensures var b := ClipBox(SquareBox(pts), imgW, imgH);
      r.Some? <==> b.xmin < b.xmax && b.ymin < b.ymax
    ensures r.Some? ==> r.value == ClipBox(SquareBox(pts), imgW, imgH)
  {
    var b := ClipBox(SquareBox(pts), imgW, imgH);
    if b.xmax - b.xmin <= 0 || b.ymax - b.ymin <= 0 then None else Some(b)
  }

  /** One axis of the square: a span `[m, M]` of extent at most `s`,
    * re-centred with side `int(1.2 * s)`, stays inside it. */
  lemma AxisCovers(m: int, bigM: int, s: int)
    requires m <= bigM && bigM - m <= s
    ensures (m + bigM) / 2 - Enlarge(s) / 2 <= m
    ensures bigM <= (m + bigM) / 2 - Enlarge(s) / 2 + Enlarge(s)
  {
    var w := bigM - m;
    assert m + bigM == 2 * m + w;
    assert (m + bigM) / 2 == m + w / 2;
    assert Enlarge(s) >= s;
  }

  /** The re-centred square around a bounding box `[x0, x1] x [y0, y1]`
    * has side `int(1.2 * max(width, height))`, at least the larger extent,
    * and contains the bounding box. */
  lemma SquareAroundCovers(x0: int, y0: int, x1: int, y1: int)
    requires x0 <= x1 && y0 <= y1
    ensures var b := SquareAround(x0, y0, x1, y1);
      b.xmax - b.xmin == b.ymax - b.ymin == Enlarge(Max(x1 - x0, y1 - y0))
      && b.xmax - b.xmin >= Max(x1 - x0, y1 - y0)
      && b.xmin <= x0 && x1 <= b.xmax && b.ymin <= y0 && y1 <= b.ymax
  {
    var s := Max(x1 - x0, y1 - y0);
    AxisCovers(x0, x1, s);
    AxisCovers(y0, y1, s);
  }

  /** The square, before clipping, has side `int(1.2 * max(width, height))`,
    * at least the larger landmark extent, and covers every landmark. */
  lemma SquareCoversLandmarks(pts: seq<Point>)
    requires |pts| > 0
    ensures var b := SquareBox(pts);
      b.xmax - b.xmin == b.ymax - b.ymin == Enlarge(Max(MaxX(pts) - MinX(pts), MaxY(pts) - MinY(pts)))
      && b.xmax - b.xmin >= Max(MaxX(pts) - MinX(pts), MaxY(pts) - MinY(pts))
    ensures var b := SquareBox(pts);
      forall k :: 0 <= k < |pts| ==> b.xmin <= pts[k].x <= b.xmax && b.ymin <= pts[k].y <= b.ymax
  {
    var x0, y0, x1, y1 := MinX(pts), MinY(pts), MaxX(pts), MaxY(pts);
    SquareAroundCovers(x0, y0, x1, y1);
    var b := SquareAround(x0, y0, x1, y1);
    assert SquareBox(pts) == b;
    forall k | 0 <= k < |pts|
      ensures b.xmin <= pts[k].x <= b.xmax && b.ymin <= pts[k].y <= b.ymax
    {
      assert x0 <= pts[k].x <= x1 && y0 <= pts[k].y <= y1;
    }
  }

  /** A landmark inside the image is inside the clipped crop. */
  lemma CropCoversVisibleLandmarks(pts: seq<Point>, imgW: nat, imgH: nat, k: int)
    requires |pts| > 0 && 0 <= k < |pts|
    requires 0 <= pts[k].x < imgW && 0 <= pts[k].y < imgH
    ensures var b := ClipBox(SquareBox(pts), imgW, imgH);
      b.xmin <= pts[k].x <= b.xmax && b.ymin <= pts[k].y <= b.ymax
  {
    SquareCoversLandmarks(pts);
  }

  /** When the landmarks span more than one pixel each way and lie inside
    * the image, the crop is accepted. */
  lemma CropAccepted(pts: seq<Point>, imgW: nat, imgH: nat)
    requires |pts| > 0
    requires forall k :: 0 <= k < |pts| ==> 0 <= pts[k].x < imgW && 0 <= pts[k].y < imgH
    requires MinX(pts) < MaxX(pts) && MinY(pts) < MaxY(pts)
    ensures CropBox(pts, imgW, imgH).Some?
  {
    var i, j, p, q := ExtremesAttained(pts);
    CropCoversVisibleLandmarks(pts, imgW, imgH, i);
    CropCoversVisibleLandmarks(pts, imgW, imgH, j);
    CropCoversVisibleLandmarks(pts, imgW, imgH, p);
    CropCoversVisibleLandmarks(pts, imgW, imgH, q);
  }
}
