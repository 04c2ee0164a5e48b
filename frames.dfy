/** Raster images and the shape contracts of the OpenCV helpers in
    benchmark/image/utils.py. Pixel values computed by OpenCV (interpolation,
    colour conversion, blurring, text rendering, codecs) come from the
    oracles in `Cv`; the wrappers here fix the shape of every result. */
module Frames {
  import opened Common

  /** The channel values of one pixel. */
  type Pixel = seq<U8>

  /** A numpy uint8 array of shape (h, w, c), or of shape (h, w) when `gray`
      holds (then every pixel has the single channel c == 1). */
  datatype Image = Image(h: nat, w: nat, c: nat, gray: bool, px: seq<seq<Pixel>>) {
    /** The array is rectangular. */
    predicate Wf() {
      && |px| == h
      && (forall i :: 0 <= i < h ==> |px[i]| == w)
      && (forall i, j :: 0 <= i < h && 0 <= j < w ==> |px[i][j]| == c)
    }

    /** numpy's `shape`. */
    function Shape(): seq<nat> {
      if gray then [h, w] else [h, w, c]
    }
  }

  /** A well-formed image. */
  type Img = im: Image | im.Wf() witness Image(0, 0, 0, false, [])

  /** A three-channel colour image, the only kind IMREAD_COLOR decodes to. */
  type BgrImg = im: Img | !im.gray && im.c == 3 witness Image(0, 0, 3, false, [])

  /** The image of the given shape whose entry (i, j, k) is f(i, j, k). */
  function Build(h: nat, w: nat, c: nat, gray: bool, f: (nat, nat, nat) -> U8): (r: Img)
    ensures r.h == h && r.w == w && r.c == c && r.gray == gray
    ensures forall i, j, k :: 0 <= i < h && 0 <= j < w && 0 <= k < c ==> r.px[i][j][k] == f(i, j, k)
  {
    var px := seq(h, (i: int) requires 0 <= i < h => BuildRow(w, c, f, i));
    assert Image(h, w, c, gray, px).Wf();
    Image(h, w, c, gray, px)
  }

  /** Row i of `Build`. */
  function BuildRow(w: nat, c: nat, f: (nat, nat, nat) -> U8, i: nat): (r: seq<Pixel>)
    ensures |r| == w
    ensures forall j :: 0 <= j < w ==> |r[j]| == c
    ensures forall j, k :: 0 <= j < w && 0 <= k < c ==> r[j][k] == f(i, j, k)
  {
    seq(w, (j: int) requires 0 <= j < w => seq(c, (k: int) requires 0 <= k < c => f(i, j, k)))
  }

  /** Entry (i, j, k) of an image, 0 outside it. */
  function At(im: Img, i: int, j: int, k: int): U8 {
    if 0 <= i < im.h && 0 <= j < im.w && 0 <= k < im.c then im.px[i][j][k] else 0
  }

  /** Encoded image bytes. */
  type Bytes = seq<U8>

  /** The container `cv2.imencode` is asked for. */
  datatype Encoding = Png | Jpeg(quality: int)

  /** The OpenCV operations whose pixel arithmetic is not modelled: each gives
      the value of entry (i, j, k) of its result. */
  datatype Cv = Cv(
    resize: (Image, nat, nat, bool, nat, nat, nat) -> U8,  // source, nh, nw, cubic?, i, j, k
    rotate: (Image, int, nat, nat, nat) -> U8,              // warpAffine by an angle in degrees
    grayscale: (Image, nat, nat) -> U8,                     // COLOR_BGR2GRAY
    toHls: (Image, nat, nat, nat) -> U8,                    // COLOR_BGR2HLS
    fromHls: (Image, nat, nat, nat) -> U8,                  // COLOR_HLS2BGR
    blur: (Image, nat, nat, nat) -> U8,                     // GaussianBlur, kernel 7, sigma 4
    sharpen: (Image, Image, nat, nat, nat) -> U8,           // addWeighted(a, 1.5, b, -0.5, 0)
    text: (Image, real, int, nat, nat, nat) -> U8,          // putText, font scale, thickness
    pow: (real, real) -> real,                              // floating-point pow
    imencode: (Image, Encoding) -> Bytes,                   // on a non-empty array
    imdecode: Bytes -> Option<BgrImg>)                      // IMREAD_COLOR; None when undecodable

  /** `resize_frame`: cubic interpolation when the area grows, area
      interpolation otherwise; OpenCV refuses an empty source or target. */
  function ResizeFrame(cv: Cv, im: Img, nh: nat, nw: nat): (r: Result<Img>)
    ensures r.Ok? <==> nh * nw > 0 && im.h * im.w > 0
    ensures r.Err? ==> r.error == CvError
    ensures r.Ok? ==> r.value.h == nh && r.value.w == nw && r.value.c == im.c && r.value.gray == im.gray
    ensures r.Ok? ==> forall i, j, k :: 0 <= i < nh && 0 <= j < nw && 0 <= k < im.c ==>
      r.value.px[i][j][k] == cv.resize(im, nh, nw, nh * nw > im.h * im.w, i, j, k)
  {
    if nh * nw == 0 || im.h * im.w == 0 then Err(CvError)
    else
      var cubic := nh * nw > im.h * im.w;
      Ok(Build(nh, nw, im.c, im.gray, (i, j, k) => cv.resize(im, nh, nw, cubic, i, j, k)))
  }

  /** `rotate_frame`: an affine rotation about the centre into a canvas of
      the same size. */
  function RotateFrame(cv: Cv, im: Img, angle: int): (r: Img)
    ensures r.h == im.h && r.w == im.w && r.c == im.c && r.gray == im.gray
    ensures r.Shape() == im.Shape()
  {
    Build(im.h, im.w, im.c, im.gray, (i, j, k) => cv.rotate(im, angle, i, j, k))
  }

  /** `bgr_to_bytes`: quality 0 (the default) means PNG, anything else JPEG
      at that quality. `cv2.imencode` refuses an empty array. */
  function BgrToBytes(cv: Cv, im: Img, quality: int): (r: Result<Bytes>)
    ensures r.Err? <==> im.h * im.w == 0
    ensures r.Err? ==> r.error == CvError
    ensures r.Ok? && quality == 0 ==> r.value == cv.imencode(im, Png)
    ensures r.Ok? && quality != 0 ==> r.value == cv.imencode(im, Jpeg(quality))
  {
    if im.h * im.w == 0 then Err(CvError)
    else Ok(cv.imencode(im, if quality == 0 then Png else Jpeg(quality)))
  }

  /** `bytes_to_bgr`: `cv2.imdecode` returns None for bytes it cannot
      decode, and IMREAD_COLOR decodes anything else to three colour
      channels. */
  function BytesToBgr(cv: Cv, b: Bytes): (r: Option<Img>)
    ensures r.None? <==> cv.imdecode(b).None?
    ensures r.Some? ==> !r.value.gray && r.value.c == 3
  {
    match cv.imdecode(b)
    case None => None
    case Some(im) => Some(im)
  }

  /** Two images with the same shape and the same entries are equal. */
  lemma ImageExt(a: Img, b: Img)
    requires a.h == b.h && a.w == b.w && a.c == b.c && a.gray == b.gray
    requires forall i, j, k :: 0 <= i < a.h && 0 <= j < a.w && 0 <= k < a.c ==> a.px[i][j][k] == b.px[i][j][k]
    ensures a == b
  {
    forall i | 0 <= i < a.h
      ensures a.px[i] == b.px[i]
    {
      forall j | 0 <= j < a.w
        ensures a.px[i][j] == b.px[i][j]
      {
        assert |a.px[i][j]| == |b.px[i][j]| == a.c;
      }
      assert |a.px[i]| == |b.px[i]|;
    }
  }

  /** Images with equal shape and equal pixels are equal. */
  lemma PixelExt(a: Img, b: Img)
    requires a.h == b.h && a.w == b.w && a.c == b.c && a.gray == b.gray
    requires forall i, j :: 0 <= i < a.h && 0 <= j < a.w ==> a.px[i][j] == b.px[i][j]
    ensures a == b
  {
    forall i | 0 <= i < a.h
      ensures a.px[i] == b.px[i]
    {
      assert |a.px[i]| == |b.px[i]|;
    }
  }

  /** `im[r0:r1, c0:c1, :]` for bounds already normalised into the image. */
  function Window(im: Img, r0: nat, r1: nat, c0: nat, c1: nat): (r: Img)
    requires r0 <= r1 <= im.h && c0 <= c1 <= im.w
    ensures r.h == r1 - r0 && r.w == c1 - c0 && r.c == im.c && r.gray == im.gray
    ensures forall i, j :: 0 <= i < r.h && 0 <= j < r.w ==> r.px[i][j] == im.px[r0 + i][c0 + j]
  {
    var px := seq(r1 - r0, (i: int) requires 0 <= i < r1 - r0 => im.px[r0 + i][c0..c1]);
    assert Image(r1 - r0, c1 - c0, im.c, im.gray, px).Wf();
    Image(r1 - r0, c1 - c0, im.c, im.gray, px)
  }

  /** numpy's `im[a:b, c:d, :]` with Python's slice rules on both axes. */
  function Slice(im: Img, a: int, b: int, c: int, d: int): (r: Img)
    ensures r == Window(im, PySlice(a, b, im.h).0, PySlice(a, b, im.h).1, PySlice(c, d, im.w).0, PySlice(c, d, im.w).1)
    ensures 0 <= a <= b <= im.h && 0 <= c <= d <= im.w ==> r.h == b - a && r.w == d - c
  {
    var (r0, r1) := PySlice(a, b, im.h);
    var (c0, c1) := PySlice(c, d, im.w);
    Window(im, r0, r1, c0, c1)
  }

  /** `np.rot90(im)`: a quarter turn counter-clockwise; entry (i, j) of the
      result is entry (j, w-1-i) of the source. */
  function Rot90(im: Img): (r: Img)
    ensures r.h == im.w && r.w == im.h && r.c == im.c && r.gray == im.gray
    ensures forall i, j :: 0 <= i < r.h && 0 <= j < r.w ==> r.px[i][j] == im.px[j][im.w - 1 - i]
  {
    var px := seq(im.w, (i: int) requires 0 <= i < im.w =>
      seq(im.h, (j: int) requires 0 <= j < im.h => im.px[j][im.w - 1 - i]));
    assert Image(im.w, im.h, im.c, im.gray, px).Wf();
    Image(im.w, im.h, im.c, im.gray, px)
  }

  /** `np.rot90(im, k)` for k >= 0: k quarter turns. */
  function Rot90k(im: Img, k: nat): (r: Img)
    ensures r.c == im.c && r.gray == im.gray
  {
    if k == 0 then im else Rot90(Rot90k(im, k - 1))
  }

  /** An odd number of quarter turns swaps height and width, an even number
      keeps them. */
  lemma {:induction false} Rot90kShape(im: Img, k: nat)
    ensures k % 2 == 1 ==> Rot90k(im, k).h == im.w && Rot90k(im, k).w == im.h
    ensures k % 2 == 0 ==> Rot90k(im, k).h == im.h && Rot90k(im, k).w == im.w
  {
    if k > 0 {
      Rot90kShape(im, k - 1);
    }
  }

  /** `np.fliplr(im)`: entry (i, j) of the result is entry (i, w-1-j). */
  function FlipLr(im: Img): (r: Img)
    ensures r.h == im.h && r.w == im.w && r.c == im.c && r.gray == im.gray
    ensures forall i, j :: 0 <= i < r.h && 0 <= j < r.w ==> r.px[i][j] == im.px[i][im.w - 1 - j]
  {
    var px := seq(im.h, (i: int) requires 0 <= i < im.h =>
      seq(im.w, (j: int) requires 0 <= j < im.w => im.px[i][im.w - 1 - j]));
    assert Image(im.h, im.w, im.c, im.gray, px).Wf();
    Image(im.h, im.w, im.c, im.gray, px)
  }

  /** Mirroring twice gives the image back. */
  lemma FlipLrInvolution(im: Img)
    ensures FlipLr(FlipLr(im)) == im
  {
    var f := FlipLr(FlipLr(im));
    forall i, j, k | 0 <= i < im.h && 0 <= j < im.w && 0 <= k < im.c
      ensures f.px[i][j][k] == im.px[i][j][k]
    {
      assert f.px[i][j] == FlipLr(im).px[i][im.w - 1 - j];
    }
    ImageExt(f, im);
  }

  /** Two more quarter turns. */
  lemma Rot90kTwoMore(im: Img, k: nat)
    ensures Rot90k(im, k + 2) == Rot90(Rot90(Rot90k(im, k)))
  {
    assert Rot90k(im, k + 1) == Rot90(Rot90k(im, k));
  }

  /** Two quarter turns are a half turn. */
  lemma HalfTurn(im: Img)
    ensures var r := Rot90(Rot90(im));
      && r.h == im.h && r.w == im.w && r.c == im.c && r.gray == im.gray
      && forall i, j :: 0 <= i < im.h && 0 <= j < im.w ==> r.px[i][j] == im.px[im.h - 1 - i][im.w - 1 - j]
  {
    var r1 := Rot90(im);
    var r2 := Rot90(r1);
    forall i, j | 0 <= i < im.h && 0 <= j < im.w
      ensures r2.px[i][j] == im.px[im.h - 1 - i][im.w - 1 - j]
    {
      assert r2.px[i][j] == r1.px[j][im.h - 1 - i];
    }
  }

  /** Four quarter turns give the image back. */
  lemma Rot90FourTimes(im: Img)
    ensures Rot90(Rot90(Rot90(Rot90(im)))) == im
  {
    var r2 := Rot90(Rot90(im));
    var r4 := Rot90(Rot90(r2));
    HalfTurn(im);
    HalfTurn(r2);
    forall i, j | 0 <= i < im.h && 0 <= j < im.w
      ensures r4.px[i][j] == im.px[i][j]
    {
      assert r4.px[i][j] == r2.px[im.h - 1 - i][im.w - 1 - j];
    }
    PixelExt(r4, im);
  }

  /** `np.rot90` is periodic in k with period 4. */
  lemma Rot90kPeriodic(im: Img, k: nat)
    ensures Rot90k(im, k + 4) == Rot90k(im, k)
  {
    Rot90kTwoMore(im, k);
    Rot90kTwoMore(im, k + 2);
    Rot90FourTimes(Rot90k(im, k));
  }

  /** The same channel map applied to every entry. */
  function MapEntries(im: Img, f: U8 -> U8): (r: Img)
    ensures r.h == im.h && r.w == im.w && r.c == im.c && r.gray == im.gray
    ensures forall i, j, k :: 0 <= i < im.h && 0 <= j < im.w && 0 <= k < im.c ==> r.px[i][j][k] == f(im.px[i][j][k])
  {
    var r := Build(im.h, im.w, im.c, im.gray, (i, j, k) => f(At(im, i, j, k)));
    assert forall i, j, k :: 0 <= i < im.h && 0 <= j < im.w && 0 <= k < im.c ==> At(im, i, j, k) == im.px[i][j][k];
    r
  }

  /** `np.delete(im, slice(a, b), 0)`: the rows outside the slice, in order. */
  function DeleteRows(im: Img, a: int, b: int): (r: Img)
    ensures r.w == im.w && r.c == im.c && r.gray == im.gray
    ensures r.h == im.h - (PySlice(a, b, im.h).1 - PySlice(a, b, im.h).0)
    ensures forall i :: 0 <= i < r.h ==>
      r.px[i] == im.px[if i < PySlice(a, b, im.h).0 then i else i + (PySlice(a, b, im.h).1 - PySlice(a, b, im.h).0)]
  {
    var (lo, hi) := PySlice(a, b, im.h);
    var px := im.px[..lo] + im.px[hi..];
    assert forall i :: 0 <= i < |px| ==> px[i] == im.px[if i < lo then i else i + (hi - lo)];
    assert Image(im.h - (hi - lo), im.w, im.c, im.gray, px).Wf();
    Image(im.h - (hi - lo), im.w, im.c, im.gray, px)
  }

  /** `np.delete(im, slice(a, b), 1)`: the columns outside the slice, in order. */
  function DeleteCols(im: Img, a: int, b: int): (r: Img)
    ensures r.h == im.h && r.c == im.c && r.gray == im.gray
    ensures r.w == im.w - (PySlice(a, b, im.w).1 - PySlice(a, b, im.w).0)
    ensures forall i, j :: 0 <= i < r.h && 0 <= j < r.w ==>
      r.px[i][j] == im.px[i][if j < PySlice(a, b, im.w).0 then j else j + (PySlice(a, b, im.w).1 - PySlice(a, b, im.w).0)]
  {
    var (lo, hi) := PySlice(a, b, im.w);
    var px := seq(im.h, (i: int) requires 0 <= i < im.h => im.px[i][..lo] + im.px[i][hi..]);
    assert forall i, j :: 0 <= i < im.h && 0 <= j < im.w - (hi - lo) ==>
      px[i][j] == im.px[i][if j < lo then j else j + (hi - lo)];
    assert Image(im.h, im.w - (hi - lo), im.c, im.gray, px).Wf();
    Image(im.h, im.w - (hi - lo), im.c, im.gray, px)
  }

  /** The sum of a sequence of channel values. */
  function SeqSum(s: seq<U8>): (r: nat)
    ensures r <= 255 * |s|
  {
    if s == [] then 0 else s[0] + SeqSum(s[1..])
  }

  /** The sum over a sequence of pixels. */
  function PixelsSum(row: seq<Pixel>): (r: nat) {
    if row == [] then 0 else SeqSum(row[0]) + PixelsSum(row[1..])
  }

  /** The sum over a sequence of rows. */
  function RowsSum(rows: seq<seq<Pixel>>): (r: nat) {
    if rows == [] then 0 else PixelsSum(rows[0]) + RowsSum(rows[1..])
  }

  /** The number of channel values of an image. */
  function Count(im: Img): nat {
    im.h * im.w * im.c
  }

  /** `np.mean(im) > RANGE_MIDPOINT` (127.5), in exact arithmetic: twice the
      sum exceeds 255 times the number of values. An empty image is not
      bright, as the mean of nothing (NaN) exceeds no bound. */
  predicate Bright(im: Img) {
    2 * RowsSum(im.px) > 255 * Count(im)
  }

  /** numpy's float-to-uint8 `astype`, under an explicit assumption: the value
      is truncated toward zero and then wrapped modulo 256. C leaves casts of
      values outside [0, 256) undefined; the model assumes the wrap. */
  function CastU8(x: real): (r: U8)
    ensures 0.0 <= x < 256.0 ==> r as real <= x < r as real + 1.0
    ensures -256.0 < x <= -1.0 ==> 0 < r && (256 - r) as real <= -x < (256 - r) as real + 1.0
  {
    var t := if x >= 0.0 then x.Floor else -((-x).Floor);
    t % 256
  }

  /** A pixel with channel k rewritten to g(k, value). */
  function MapPixel(p: Pixel, g: (nat, U8) -> U8): (r: Pixel)
    ensures |r| == |p|
    ensures forall k :: 0 <= k < |p| ==> r[k] == g(k, p[k])
  {
    seq(|p|, (k: int) requires 0 <= k < |p| => g(k, p[k]))
  }

  /** The image with every pixel of rows [r0, r1) x columns [c0, c1)
      rewritten by g and every other pixel kept. */
  function Rewrite(im: Img, r0: nat, r1: nat, c0: nat, c1: nat, g: (nat, U8) -> U8): (r: Img)
    requires r0 <= r1 <= im.h && c0 <= c1 <= im.w
    ensures r.h == im.h && r.w == im.w && r.c == im.c && r.gray == im.gray
    ensures forall i, j :: 0 <= i < im.h && 0 <= j < im.w ==>
      r.px[i][j] == if r0 <= i < r1 && c0 <= j < c1 then MapPixel(im.px[i][j], g) else im.px[i][j]
  {
    var px := seq(im.h, (i: int) requires 0 <= i < im.h =>
      seq(im.w, (j: int) requires 0 <= j < im.w =>
        if r0 <= i < r1 && c0 <= j < c1 then MapPixel(im.px[i][j], g) else im.px[i][j]));
    assert Image(im.h, im.w, im.c, im.gray, px).Wf();
    Image(im.h, im.w, im.c, im.gray, px)
  }

  /** Every cell of a 2-D array of pixels holds c channel values. */
  predicate Uniform(a: array2<Pixel>, c: nat)
    reads a
  {
    forall i, j :: 0 <= i < a.Length0 && 0 <= j < a.Length1 ==> |a[i, j]| == c
  }

  /** The image a numpy array held as a 2-D array of pixels denotes. */
  function Grid(a: array2<Pixel>, c: nat, gray: bool): (r: Image)
    reads a
    ensures r.h == a.Length0 && r.w == a.Length1 && r.c == c && r.gray == gray
    ensures |r.px| == a.Length0 && forall i :: 0 <= i < a.Length0 ==> |r.px[i]| == a.Length1
    ensures forall i, j :: 0 <= i < a.Length0 && 0 <= j < a.Length1 ==> r.px[i][j] == a[i, j]
    ensures Uniform(a, c) ==> r.Wf()
  {
    Image(a.Length0, a.Length1, c, gray,
      seq(a.Length0, (i: int) reads a requires 0 <= i < a.Length0 =>
        seq(a.Length1, (j: int) reads a requires 0 <= j < a.Length1 => a[i, j])))
  }

  /** `image.copy()`: a fresh array holding the image. */
  method ToArray(im: Img) returns (a: array2<Pixel>)
    ensures fresh(a) && Uniform(a, im.c) && Grid(a, im.c, im.gray) == im
  {
    a := new Pixel[im.h, im.w]((i: nat, j: nat) => if i < im.h && j < im.w then im.px[i][j] else []);
    var g := Grid(a, im.c, im.gray);
    forall i | 0 <= i < im.h
      ensures g.px[i] == im.px[i]
    {
      assert |g.px[i]| == |im.px[i]|;
    }
  }

  /** One row of `RewriteWindow`. */
  method RewriteRow(a: array2<Pixel>, i: nat, c0: nat, c1: nat, g: (nat, U8) -> U8)
    requires i < a.Length0 && c0 <= c1 <= a.Length1
    modifies a
    ensures forall i', j' :: 0 <= i' < a.Length0 && 0 <= j' < a.Length1 ==>
      a[i', j'] == if i' == i && c0 <= j' < c1 then MapPixel(old(a[i', j']), g) else old(a[i', j'])
  {
    for j := c0 to c1
      invariant forall i', j' :: 0 <= i' < a.Length0 && 0 <= j' < a.Length1 ==>
        a[i', j'] == if i' == i && c0 <= j' < j then MapPixel(old(a[i', j']), g) else old(a[i', j'])
    {
      a[i, j] := MapPixel(a[i, j], g);
    }
  }

  /** `a[r0:r1, c0:c1, :] = ...` for a per-channel rewrite g: the window is
      rewritten in place and nothing else changes. */
  method RewriteWindow(a: array2<Pixel>, r0: nat, r1: nat, c0: nat, c1: nat, g: (nat, U8) -> U8)
    requires r0 <= r1 <= a.Length0 && c0 <= c1 <= a.Length1
    modifies a
    ensures forall i, j :: 0 <= i < a.Length0 && 0 <= j < a.Length1 ==>
      a[i, j] == if r0 <= i < r1 && c0 <= j < c1 then MapPixel(old(a[i, j]), g) else old(a[i, j])
  {
    for i := r0 to r1
      invariant forall i', j' :: 0 <= i' < a.Length0 && 0 <= j' < a.Length1 ==>
        a[i', j'] == if r0 <= i' < i && c0 <= j' < c1 then MapPixel(old(a[i', j']), g) else old(a[i', j'])
    {
      RewriteRow(a, i, c0, c1, g);
    }
  }

  /** An array rewritten as `RewriteWindow` does holds `Rewrite` of the
      image it held before. */
  lemma GridRewritten(a: array2<Pixel>, before: Img, r0: nat, r1: nat, c0: nat, c1: nat, g: (nat, U8) -> U8)
    requires before.h == a.Length0 && before.w == a.Length1
    requires r0 <= r1 <= a.Length0 && c0 <= c1 <= a.Length1
    requires forall i, j :: 0 <= i < a.Length0 && 0 <= j < a.Length1 ==>
      a[i, j] == if r0 <= i < r1 && c0 <= j < c1 then MapPixel(before.px[i][j], g) else before.px[i][j]
    ensures Uniform(a, before.c)
    ensures Grid(a, before.c, before.gray) == Rewrite(before, r0, r1, c0, c1, g)
  {
    var after: Img := Grid(a, before.c, before.gray);
    PixelExt(after, Rewrite(before, r0, r1, c0, c1, g));
  }
}
