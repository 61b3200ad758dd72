// Frames as pixel grids, and the crop / mask / paste-back performed on
// each video frame by inference.py (lines 141-172) and
// inference_improved.py (lines 233-263).

module PasteBack {
  import opened FaceBox
  import opened FeatureWindow

  /** One BGR pixel of an OpenCV `uint8` image. */
  datatype Pixel = Pixel(b: int, g: int, r: int)

  const Black := Pixel(0, 0, 0)

  /** An image as rows of pixels, `img[row][col]`. */
  type Grid = seq<seq<Pixel>>

  /** `img.shape[:2] == (h, w)` */
  predicate IsImage(g: Grid, h: nat, w: nat) {
    |g| == h && forall r :: 0 <= r < |g| ==> |g[r]| == w
  }

  function Width(g: Grid): nat { if |g| == 0 then 0 else |g[0]| }

  /** `img[top:top+h, left:left+w]` of a region inside the image. */
  function SubGrid(g: Grid, top: nat, left: nat, h: nat, w: nat): (s: Grid)
    requires IsImage(g, |g|, Width(g)) && top + h <= |g| && left + w <= Width(g)
    ensures IsImage(s, h, w)
    ensures forall r, c :: 0 <= r < h && 0 <= c < w ==> s[r][c] == g[top + r][left + c]
  {
    seq(h, r requires 0 <= r < h => seq(w, c requires 0 <= c < w => g[top + r][left + c]))
  }

  predicate InRect(r: int, c: int, top: int, left: int, h: int, w: int) {
    top <= r < top + h && left <= c < left + w
  }

  /** `img[top:top+h, left:left+w] = block` for a block that fits. */
  function Paste(g: Grid, top: nat, left: nat, block: Grid): (p: Grid)
    requires IsImage(g, |g|, Width(g)) && IsImage(block, |block|, Width(block))
    requires top + |block| <= |g| && left + Width(block) <= Width(g)
    ensures IsImage(p, |g|, Width(g))
    ensures forall r, c :: 0 <= r < |g| && 0 <= c < Width(g) ==>
      p[r][c] == if InRect(r, c, top, left, |block|, Width(block)) then block[r - top][c - left] else g[r][c]
  {
    seq(|g|, r requires 0 <= r < |g| => seq(Width(g), c requires 0 <= c < Width(g) =>
      if InRect(r, c, top, left, |block|, Width(block)) then block[r - top][c - left] else g[r][c]))
  }

  /** `cv2.rectangle(img, (x, y, w, h), color, -1)`: a filled rectangle
    * with `w` columns from `x` and `h` rows from `y`, clipped to the image. */
  function FillRect(g: Grid, x: int, y: int, w: int, h: int, color: Pixel): (f: Grid)
    requires IsImage(g, |g|, Width(g))
    ensures IsImage(f, |g|, Width(g))
  {
    seq(|g|, r requires 0 <= r < |g| => seq(Width(g), c requires 0 <= c < Width(g) =>
      if InRect(r, c, y, x, h, w) then color else g[r][c]))
  }

  /** Two grids of the same shape with the same pixels are equal. */
  lemma GridExt(g1: Grid, g2: Grid, h: nat, w: nat)
    requires IsImage(g1, h, w) && IsImage(g2, h, w)
    requires forall r, c :: 0 <= r < h && 0 <= c < w ==> g1[r][c] == g2[r][c]
    ensures g1 == g2
  {
    forall r | 0 <= r < h
      ensures g1[r] == g2[r]
    {
      assert forall c :: 0 <= c < w ==> g1[r][c] == g2[r][c];
    }
  }

  /** Cutting out the region just pasted gives back the block. */
  lemma SubGridOfPaste(g: Grid, top: nat, left: nat, block: Grid)
    requires IsImage(g, |g|, Width(g)) && IsImage(block, |block|, Width(block))
    requires top + |block| <= |g| && left + Width(block) <= Width(g)
    ensures SubGrid(Paste(g, top, left, block), top, left, |block|, Width(block)) == block
  {
    var p := Paste(g, top, left, block);
    assert Width(p) == Width(g) by {
      if |g| > 0 { assert |p[0]| == Width(g); }
    }
    GridExt(SubGrid(p, top, left, |block|, Width(block)), block, |block|, Width(block));
  }

  /** Pasting back a region cut from the same image changes nothing. */
  lemma PasteOfSubGrid(g: Grid, top: nat, left: nat, h: nat, w: nat)
    requires IsImage(g, |g|, Width(g)) && top + h <= |g| && left + w <= Width(g)
    requires h > 0
    ensures Paste(g, top, left, SubGrid(g, top, left, h, w)) == g
  {
    var s := SubGrid(g, top, left, h, w);
    assert Width(s) == w;
    GridExt(Paste(g, top, left, s), g, |g|, Width(g));
  }

  /** The image of an `array2` of pixels. */
  function GridOf(a: array2<Pixel>): (g: Grid)
    reads a
    ensures IsImage(g, a.Length0, a.Length1)
    ensures forall r, c :: 0 <= r < a.Length0 && 0 <= c < a.Length1 ==> g[r][c] == a[r, c]
  {
    seq(a.Length0, r requires 0 <= r < a.Length0 reads a =>
      seq(a.Length1, c requires 0 <= c < a.Length1 reads a => a[r, c]))
  }

  lemma WidthOf(g: Grid, h: nat, w: nat)
    requires IsImage(g, h, w) && h > 0
    ensures Width(g) == w
  {
  }

  /** The in-place slice assignment `a[top:top+h, left:left+w] = block`. */
  method WriteBlock(a: array2<Pixel>, top: nat, left: nat, block: Grid)
    requires IsImage(block, |block|, Width(block))
    requires top + |block| <= a.Length0 && left + Width(block) <= a.Length1
    modifies a
    ensures forall r, c :: 0 <= r < a.Length0 && 0 <= c < a.Length1 ==>
      a[r, c] == if InRect(r, c, top, left, |block|, Width(block))
                 then block[r - top][c - left] else old(a[r, c])
  {
    var h, w := |block|, Width(block);
    for i := 0 to h
      invariant forall r, c :: 0 <= r < a.Length0 && 0 <= c < a.Length1 ==>
        a[r, c] == if InRect(r, c, top, left, i, w) then block[r - top][c - left] else old(a[r, c])
    {
      for j := 0 to w
        invariant forall r, c :: 0 <= r < a.Length0 && 0 <= c < a.Length1 ==>
          a[r, c] == if InRect(r, c, top, left, i, w) || (r == top + i && left <= c < left + j)
                     then block[r - top][c - left] else old(a[r, c])
      {
        a[top + i, left + j] := block[i][j];
      }
    }
  }

  /** The same write stated on whole images. */
  method PasteInto(a: array2<Pixel>, top: nat, left: nat, block: Grid)
    requires IsImage(block, |block|, Width(block))
    requires top + |block| <= a.Length0 && left + Width(block) <= a.Length1
    modifies a
    ensures a.Length0 > 0 ==> GridOf(a) == Paste(old(GridOf(a)), top, left, block)
  {
    ghost var before := GridOf(a);
    WriteBlock(a, top, left, block);
    if a.Length0 > 0 {
      WidthOf(before, a.Length0, a.Length1);
      GridExt(GridOf(a), Paste(before, top, left, block), a.Length0, a.Length1);
    }
  }

  /** `cv2.resize(img, (w, h))`: any grid of the requested shape. The
    * interpolation itself is not modelled. */
  type Resizer = (Grid, nat, nat) -> Grid

  ghost predicate ResizerShapes(resize: Resizer) {
    forall g, w, h :: IsImage(resize(g, w, h), h, w)
  }

  /** The lip-sync network with its uint8 conversion: from the 160x160 face,
    * the masked face and the audio window to a 160x160 face. */
  type Network = (Grid, Grid, seq<Row>) -> Grid

  ghost predicate NetworkShapes(net: Network) {
    forall real_, masked, audio :: IsImage(net(real_, masked, audio), 160, 160)
  }

  const CropSide := 168
  const Inner := 4
  const InnerSide := 160

  /** `cv2.rectangle(img_real_ex_ori, (5,5,150,145), (0,0,0), -1)`. */
  function MaskMouth(face: Grid): (m: Grid)
    requires IsImage(face, InnerSide, InnerSide)
    ensures IsImage(m, InnerSide, InnerSide)
  {
    FillRect(face, 5, 5, 150, 145, Black)
  }

  /** The `img_real_ex` crop of the resized face. */
  function InnerFace(crop: Grid): (f: Grid)
    requires IsImage(crop, CropSide, CropSide)
    ensures IsImage(f, InnerSide, InnerSide)
  {
    WidthOf(crop, CropSide, CropSide);
    SubGrid(crop, Inner, Inner, InnerSide, InnerSide)
  }

  /** The frame written to the video: the face box of `img` replaced by the
    * framed face resized back to the box's size. */
  function RenderFace(img: Grid, box: Box, resize: Resizer, net: Network, audio: seq<Row>): (out: Grid)
    requires ResizerShapes(resize) && NetworkShapes(net)
    requires IsImage(img, |img|, Width(img))
    requires 0 <= box.xmin < box.xmax <= Width(img) && 0 <= box.ymin < box.ymax <= |img|
    ensures IsImage(out, |img|, Width(img))
  {
    var h, w := box.ymax - box.ymin, box.xmax - box.xmin;
    var back := resize(FramedFace(img, box, resize, net, audio), w, h);
    WidthOf(back, h, w);
    Paste(img, box.ymin, box.xmin, back)
  }

  /** Pixels outside the face box are never touched, and the box holds the
    * crop resized back to its own size. */
  lemma RenderOnlyTheBox(img: Grid, box: Box, resize: Resizer, net: Network, audio: seq<Row>)
    requires ResizerShapes(resize) && NetworkShapes(net)
    requires IsImage(img, |img|, Width(img))
    requires 0 <= box.xmin < box.xmax <= Width(img) && 0 <= box.ymin < box.ymax <= |img|
    ensures var out := RenderFace(img, box, resize, net, audio);
      forall r, c :: 0 <= r < |img| && 0 <= c < Width(img) && !InRect(r, c, box.ymin, box.xmin, box.ymax - box.ymin, box.xmax - box.xmin) ==>
        out[r][c] == img[r][c]
    ensures var out := RenderFace(img, box, resize, net, audio);
      SubGrid(out, box.ymin, box.xmin, box.ymax - box.ymin, box.xmax - box.xmin)
      == resize(FramedFace(img, box, resize, net, audio), box.xmax - box.xmin, box.ymax - box.ymin)
  {
    var h, w := box.ymax - box.ymin, box.xmax - box.xmin;
    var back := resize(FramedFace(img, box, resize, net, audio), w, h);
    assert RenderFace(img, box, resize, net, audio) == Paste(img, box.ymin, box.xmin, back);
    PastedBlock(img, box.ymin, box.xmin, back, h, w);
  }

  /** A `h` by `w` block pasted at (`top`, `left`): every pixel outside its
    * rectangle is the old one and the rectangle holds the block. */
  lemma PastedBlock(g: Grid, top: nat, left: nat, block: Grid, h: nat, w: nat)
    requires IsImage(g, |g|, Width(g)) && IsImage(block, h, w) && h > 0
    requires top + h <= |g| && left + w <= Width(g)
    ensures Width(block) == w
    ensures forall r, c :: 0 <= r < |g| && 0 <= c < Width(g) && !InRect(r, c, top, left, h, w) ==>
      Paste(g, top, left, block)[r][c] == g[r][c]
    ensures SubGrid(Paste(g, top, left, block), top, left, h, w) == block
  {
    WidthOf(block, h, w);
    SubGridOfPaste(g, top, left, block);
  }

  /** The 168x168 face after the network output is written into its centre. */
  function FramedFace(img: Grid, box: Box, resize: Resizer, net: Network, audio: seq<Row>): (f: Grid)
    requires ResizerShapes(resize) && NetworkShapes(net)
    requires IsImage(img, |img|, Width(img))
    requires 0 <= box.xmin < box.xmax <= Width(img) && 0 <= box.ymin < box.ymax <= |img|
    ensures IsImage(f, CropSide, CropSide)
  {
    var h, w := box.ymax - box.ymin, box.xmax - box.xmin;
    var crop := resize(SubGrid(img, box.ymin, box.xmin, h, w), CropSide, CropSide);
    var face := InnerFace(crop);
    var pred := net(face, MaskMouth(face), audio);
    WidthOf(crop, CropSide, CropSide);
    WidthOf(pred, InnerSide, InnerSide);
    Paste(crop, Inner, Inner, pred)
  }

  /** The network sees the face with the rectangle of rows 5..149 and
    * columns 5..154 blacked out and every other pixel intact. */
  lemma MaskShape(face: Grid)
    requires IsImage(face, InnerSide, InnerSide)
    ensures forall r, c :: 5 <= r < 150 && 5 <= c < 155 ==> MaskMouth(face)[r][c] == Black
    ensures forall r, c :: 0 <= r < InnerSide && 0 <= c < InnerSide && !(5 <= r < 150 && 5 <= c < 155) ==>
      MaskMouth(face)[r][c] == face[r][c]
  {
    WidthOf(face, InnerSide, InnerSide);
  }

  /** The 4-pixel border of the resized crop survives; the centre is the
    * network output. */
  lemma FramedBorder(img: Grid, box: Box, resize: Resizer, net: Network, audio: seq<Row>)
    requires ResizerShapes(resize) && NetworkShapes(net)
    requires IsImage(img, |img|, Width(img))
    requires 0 <= box.xmin < box.xmax <= Width(img) && 0 <= box.ymin < box.ymax <= |img|
    ensures var crop := resize(SubGrid(img, box.ymin, box.xmin, box.ymax - box.ymin, box.xmax - box.xmin), CropSide, CropSide);
      var f := FramedFace(img, box, resize, net, audio);
      forall r, c :: 0 <= r < CropSide && 0 <= c < CropSide && !(4 <= r < 164 && 4 <= c < 164) ==> f[r][c] == crop[r][c]
    ensures var crop := resize(SubGrid(img, box.ymin, box.xmin, box.ymax - box.ymin, box.xmax - box.xmin), CropSide, CropSide);
      var face := InnerFace(crop);
      var f := FramedFace(img, box, resize, net, audio);
      SubGrid(f, Inner, Inner, InnerSide, InnerSide) == net(face, MaskMouth(face), audio)
  {
    var crop := resize(SubGrid(img, box.ymin, box.xmin, box.ymax - box.ymin, box.xmax - box.xmin), CropSide, CropSide);
    var face := InnerFace(crop);
    var pred := net(face, MaskMouth(face), audio);
    WidthOf(crop, CropSide, CropSide);
    WidthOf(pred, InnerSide, InnerSide);
    SubGridOfPaste(crop, Inner, Inner, pred);
  }

  /** `crop_img_ori = crop_img.copy(); crop_img_ori[4:164, 4:164] = pred`
    * on a fresh buffer. */
  method FrameFace(img: Grid, box: Box, resize: Resizer, net: Network, audio: seq<Row>)
    returns (cropImgOri: array2<Pixel>)
    requires ResizerShapes(resize) && NetworkShapes(net)
    requires IsImage(img, |img|, Width(img))
    requires 0 <= box.xmin < box.xmax <= Width(img) && 0 <= box.ymin < box.ymax <= |img|
    ensures fresh(cropImgOri)
    ensures GridOf(cropImgOri) == FramedFace(img, box, resize, net, audio)
  {
    var h, w := box.ymax - box.ymin, box.xmax - box.xmin;
    var cropImg := resize(SubGrid(img, box.ymin, box.xmin, h, w), CropSide, CropSide);
    var face := InnerFace(cropImg);
    var pred := net(face, MaskMouth(face), audio);
    WidthOf(pred, InnerSide, InnerSide);
    WidthOf(cropImg, CropSide, CropSide);
    cropImgOri := CopyWithCentre(cropImg, pred);
  }

  /** `crop_img_ori = crop_img.copy(); crop_img_ori[4:164, 4:164] = pred`. */
  method CopyWithCentre(cropImg: Grid, pred: Grid) returns (cropImgOri: array2<Pixel>)
    requires IsImage(cropImg, CropSide, CropSide) && IsImage(pred, InnerSide, InnerSide)
    requires Width(cropImg) == CropSide && Width(pred) == InnerSide
    ensures fresh(cropImgOri)
    ensures GridOf(cropImgOri) == Paste(cropImg, Inner, Inner, pred)
  {
    cropImgOri := new Pixel[CropSide, CropSide]((r, c) requires 0 <= r < CropSide && 0 <= c < CropSide => cropImg[r][c]);
    GridExt(GridOf(cropImgOri), cropImg, CropSide, CropSide);
    PasteInto(cropImgOri, Inner, Inner, pred);
  }

  /** The per-frame work of the inference scripts on the frame buffer:
    * resize the crop, copy it, write the prediction into the copy's centre,
    * resize it back and write it into the frame. */
  method RenderFrame(img: array2<Pixel>, box: Box, resize: Resizer, net: Network, audio: seq<Row>)
    requires ResizerShapes(resize) && NetworkShapes(net)
    requires 0 <= box.xmin < box.xmax <= img.Length1 && 0 <= box.ymin < box.ymax <= img.Length0
    modifies img
    ensures GridOf(img) == RenderFace(old(GridOf(img)), box, resize, net, audio)
  {
    ghost var before := GridOf(img);
    WidthOf(before, img.Length0, img.Length1);
    var h, w := box.ymax - box.ymin, box.xmax - box.xmin;
    var cropImgOri := FrameFace(GridOf(img), box, resize, net, audio);
    var back := resize(GridOf(cropImgOri), w, h);
    WidthOf(back, h, w);
    PasteInto(img, box.ymin, box.xmin, back);
  }
}
