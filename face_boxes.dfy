/**
 * The integer geometry of backend/app/utils.py: choosing the largest face
 * detection, the padded crop of `detect_and_crop_face`, and the target
 * rectangle of `insert_face_into_template`.  Detections arrive already
 * scaled to pixels and truncated, and the padding factors that the source
 * computes in floating point arrive as integers or integer functions.
 */
module FaceBoxes {
  import opened Base

  /** A detection in pixels: left, top, width, height. */
  datatype Box = Box(x: int, y: int, w: int, h: int)

  function Area(b: Box): int
  {
    b.w * b.h
  }

  const CannotRead := "cannot read input image"
  const NoFace := "no face detected"
  /** The TypeError raised when `best` is still `None` at `x, y, bw, bh = best`. */
  const CannotUnpack := "cannot unpack non-iterable NoneType object"

  /** Box `i` is the one the selection keeps: positive area, none larger, every earlier one smaller. */
  predicate Largest(boxes: seq<Box>, i: int)
  {
    && 0 <= i < |boxes|
    && Area(boxes[i]) > 0
    && (forall j :: 0 <= j < |boxes| ==> Area(boxes[j]) <= Area(boxes[i]))
    && (forall j :: 0 <= j < i ==> Area(boxes[j]) < Area(boxes[i]))
  }

  /**
   * The loop over the detections with `best_area` starting at 0 and a strict
   * comparison: the earliest box of maximal area, or none when no area is positive.
   */
  method LargestDetection(boxes: seq<Box>) returns (best: Option<nat>)
    ensures best.None? <==> forall j :: 0 <= j < |boxes| ==> Area(boxes[j]) <= 0
    ensures best.Some? ==> Largest(boxes, best.value)
  {
    best := None;
    var bestArea := 0;
    var k := 0;
    while k < |boxes|
      invariant 0 <= k <= |boxes|
      invariant best.None? ==> bestArea == 0 && forall j :: 0 <= j < k ==> Area(boxes[j]) <= 0
      invariant best.Some? ==> best.value < k && bestArea == Area(boxes[best.value]) > 0
      invariant forall j :: 0 <= j < k ==> Area(boxes[j]) <= bestArea
      invariant best.Some? ==> forall j :: 0 <= j < best.value ==> Area(boxes[j]) < bestArea
    {
      var area := Area(boxes[k]);
      if area > bestArea {
        best := Some(k);
        bestArea := area;
      }
      k := k + 1;
    }
  }

  /** The selection is determined by the detections: at most one box qualifies. */
  lemma LargestUnique(boxes: seq<Box>, i: int, j: int)
    requires Largest(boxes, i) && Largest(boxes, j)
    ensures i == j
  {
  }

  // ---------------------------------------------------------------- the face crop

  /** Python's `int()` of `0.25 * m`: a quarter, truncated toward zero. */
  function QuarterTowardZero(m: int): (q: int)
    ensures m >= 0 ==> 0 <= 4 * q <= m < 4 * q + 4
    ensures m < 0 ==> 4 * q - 4 < m <= 4 * q <= 0
  {
    if m >= 0 then m / 4 else -((-m) / 4)
  }

  function Max(a: int, b: int): int { if a >= b then a else b }
  function Min(a: int, b: int): int { if a <= b then a else b }

  /** A rectangle by its corners, columns `x0` up to `x1` and rows `y0` up to `y1`, ends excluded. */
  datatype Rect = Rect(x0: int, y0: int, x1: int, y1: int)

  predicate InSpan(lo: int, hi: int, p: int)
  {
    lo <= p < hi
  }

  /** The padding `detect_and_crop_face` puts around a box: a quarter of its larger side. */
  function CropPad(b: Box): int
  {
    QuarterTowardZero(Max(b.w, b.h))
  }

  /** The crop: the box grown by its padding on every side, and clipped to the `w` by `h` image. */
  function CropRegion(w: int, h: int, b: Box): (r: Rect)
    ensures 0 <= r.x0 && 0 <= r.y0 && r.x1 <= w && r.y1 <= h
    ensures forall px :: InSpan(r.x0, r.x1, px) <==> InSpan(0, w, px) && InSpan(b.x - CropPad(b), b.x + b.w + CropPad(b), px)
    ensures forall py :: InSpan(r.y0, r.y1, py) <==> InSpan(0, h, py) && InSpan(b.y - CropPad(b), b.y + b.h + CropPad(b), py)
  {
    var pad := CropPad(b);
    Rect(Max(0, b.x - pad), Max(0, b.y - pad), Min(w, b.x + b.w + pad), Min(h, b.y + b.h + pad))
  }

  /** A box lying inside the image, with sides that are not negative, lies inside its crop. */
  lemma CropContainsBox(w: int, h: int, b: Box)
    requires 0 <= b.x && 0 <= b.w && b.x + b.w <= w
    requires 0 <= b.y && 0 <= b.h && b.y + b.h <= h
    ensures var r := CropRegion(w, h, b); r.x0 <= b.x && b.x + b.w <= r.x1 && r.y0 <= b.y && b.y + b.h <= r.y1
  {
    assert CropPad(b) >= 0;
  }

  /**
   * `detect_and_crop_face` up to the slicing: `imageRead` says whether
   * `cv2.imread` gave an image, `boxes` are the detections.
   */
  method DetectAndCrop(imageRead: bool, w: int, h: int, boxes: seq<Box>) returns (r: Result<Rect>)
    ensures !imageRead ==> r == Err(CannotRead)
    ensures imageRead && boxes == [] ==> r == Err(NoFace)
    ensures imageRead && boxes != [] ==>
      (r == Err(CannotUnpack) <==> forall j :: 0 <= j < |boxes| ==> Area(boxes[j]) <= 0)
    ensures r.Ok? <==> imageRead && exists j :: 0 <= j < |boxes| && Area(boxes[j]) > 0
    ensures r.Ok? ==> exists i :: Largest(boxes, i) && r.value == CropRegion(w, h, boxes[i])
  {
    if !imageRead {
      return Err(CannotRead);
    }
    if boxes == [] {
      return Err(NoFace);
    }
    var best := LargestDetection(boxes);
    if best.None? {
      return Err(CannotUnpack);
    }
    r := Ok(CropRegion(w, h, boxes[best.value]));
  }

  // ---------------------------------------------------------------- the template target

  /**
   * The target area for the face in a `wt` by `ht` template: the chosen box
   * grown by `padX` and `padY`, moved right and down to start inside the
   * template, and cut to the template's right and bottom edges.
   */
  function TemplateTarget(wt: int, ht: int, b: Box, padX: int, padY: int): (t: Box)
    ensures t.x >= 0 && t.y >= 0
    ensures t.x + t.w <= wt && t.y + t.h <= ht
    ensures t.w <= b.w + 2 * padX && t.h <= b.h + 2 * padY
    ensures t.x <= wt && b.w + 2 * padX >= 0 ==> t.w >= 0
    ensures t.y <= ht && b.h + 2 * padY >= 0 ==> t.h >= 0
    ensures t.x == b.x - padX || (t.x == 0 && b.x - padX < 0)
    ensures t.y == b.y - padY || (t.y == 0 && b.y - padY < 0)
    ensures t.w == b.w + 2 * padX || t.x + t.w == wt
    ensures t.h == b.h + 2 * padY || t.y + t.h == ht
  {
    var tx := Max(0, b.x - padX);
    var ty := Max(0, b.y - padY);
    Box(tx, ty, Min(wt - tx, b.w + padX * 2), Min(ht - ty, b.h + padY * 2))
  }

  /** A box whose padded area fits the template gets exactly that padded area as its target. */
  lemma TargetOfFittingBox(wt: int, ht: int, b: Box, padX: int, padY: int)
    requires 0 <= b.x - padX && b.x + b.w + padX <= wt
    requires 0 <= b.y - padY && b.y + b.h + padY <= ht
    ensures TemplateTarget(wt, ht, b, padX, padY) == Box(b.x - padX, b.y - padY, b.w + 2 * padX, b.h + 2 * padY)
  {
  }

  /** With non-negative pads, a box inside the template keeps its own area inside the target. */
  lemma TargetContainsBox(wt: int, ht: int, b: Box, padX: int, padY: int)
    requires 0 <= padX && 0 <= padY
    requires 0 <= b.x && b.x + b.w <= wt && 0 <= b.y && b.y + b.h <= ht
    ensures var t := TemplateTarget(wt, ht, b, padX, padY);
      t.x <= b.x && b.x + b.w <= t.x + t.w && t.y <= b.y && b.y + b.h <= t.y + t.h
  {
  }

  /**
   * `insert_face_into_template` up to the resize: `fallback` is the target
   * used when the template shows no face, and `padX`, `padY` give the pads
   * for a box's width and height.
   */
  method InsertTarget(wt: int, ht: int, boxes: seq<Box>, fallback: Box, padX: int -> int, padY: int -> int)
    returns (r: Result<Box>)
    ensures boxes == [] ==> r == Ok(fallback)
    ensures boxes != [] ==> (r == Err(CannotUnpack) <==> forall j :: 0 <= j < |boxes| ==> Area(boxes[j]) <= 0)
    ensures r.Err? ==> boxes != [] && r == Err(CannotUnpack)
    ensures boxes != [] && r.Ok? ==>
      exists i :: Largest(boxes, i) && r.value == TemplateTarget(wt, ht, boxes[i], padX(boxes[i].w), padY(boxes[i].h))
  {
    if boxes == [] {
      return Ok(fallback);
    }
    var best := LargestDetection(boxes);
    if best.None? {
      return Err(CannotUnpack);
    }
    var b := boxes[best.value];
    r := Ok(TemplateTarget(wt, ht, b, padX(b.w), padY(b.h)));
  }
}
