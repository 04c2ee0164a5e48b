/** IEAlterA of benchmark/image/edit_alt.py: masks written into regions of
    a copied array, bands of rows and columns removed, and a caption drawn.
    The generator draws the geometry of variants 0-6 block by block, before
    each block's index test. */
module EditAlt {
  import opened Common
  import opened Frames
  import opened Random
  import opened Edit

  // ---------------------------------------------------------------------
  // Pixel arithmetic of the overlays

  /** One channel value under an overlay: p - 127.5, divided by 4, shifted
      by -64 when the region is bright and by +64 otherwise, and cast back
      to uint8 (exact in float64). */
  function OverlayValue(p: U8, bright: bool): U8 {
    CastU8((p as real - 127.5) / 4.0 + (if bright then -64.0 else 64.0))
  }

  /** In the +64 branch every value lies in [32, 95]. The -64 branch is
      negative before the cast; under the wrap-around assumption of CastU8
      it lands in [161, 224]. */
  lemma OverlayValueRange(p: U8)
    ensures 32 <= OverlayValue(p, false) <= 95
    ensures 161 <= OverlayValue(p, true) <= 224
  {
    var x := (p as real - 127.5) / 4.0 + 64.0;
    assert 32.0 < x < 96.0;
    var y := (p as real - 127.5) / 4.0 - 64.0;
    assert -96.0 < y < -32.0;
  }

  /** The channel map an overlay applies, for the region's brightness. */
  function OverlayMap(bright: bool): (nat, U8) -> U8 {
    (k: nat, v: U8) => OverlayValue(v, bright)
  }

  // ---------------------------------------------------------------------
  // overlay_box, overlay_lines, remove_lines

  /** The four slice bounds `ha:hb, wa:wb` of a region. */
  datatype Box = Box(ha: int, hb: int, wa: int, wb: int)

  /** Pixel (i, j) lies in the region `[ha:hb, wa:wb]` of an h x w array,
      with Python's slice rules. */
  predicate Covers(b: Box, h: nat, w: nat, i: int, j: int) {
    && PySlice(b.ha, b.hb, h).0 <= i < PySlice(b.ha, b.hb, h).1
    && PySlice(b.wa, b.wb, w).0 <= j < PySlice(b.wa, b.wb, w).1
  }

  /** `overlay_box`: the region's mean decides the shift (`np.mean(mask) > 0`
      says the mean exceeds 127.5; an empty region is not bright), every
      channel of the region is rewritten, everything else is kept. */
  function OverlayBox(im: Img, b: Box): (r: Img)
    ensures r.h == im.h && r.w == im.w && r.c == im.c && r.gray == im.gray
    ensures forall i, j :: 0 <= i < im.h && 0 <= j < im.w && !Covers(b, im.h, im.w, i, j) ==>
      r.px[i][j] == im.px[i][j]
    ensures forall i, j, k :: 0 <= i < im.h && 0 <= j < im.w && 0 <= k < im.c && Covers(b, im.h, im.w, i, j) ==>
      r.px[i][j][k] == OverlayValue(im.px[i][j][k], Bright(Slice(im, b.ha, b.hb, b.wa, b.wb)))
  {
    var rows := PySlice(b.ha, b.hb, im.h);
    var cols := PySlice(b.wa, b.wb, im.w);
    Rewrite(im, rows.0, rows.1, cols.0, cols.1, OverlayMap(Bright(Window(im, rows.0, rows.1, cols.0, cols.1))))
  }

  /** `overlay_box(image_bgr, ha, hb, wa, wb)`, which writes into the array
      it is given and returns it. */
  method OverlayBoxInPlace(a: array2<Pixel>, c: nat, gray: bool, b: Box)
    requires Uniform(a, c)
    modifies a
    ensures Uniform(a, c)
    ensures Grid(a, c, gray) == OverlayBox(old(Grid(a, c, gray)), b)
  {
    ghost var before: Img := Grid(a, c, gray);
    var rows := PySlice(b.ha, b.hb, a.Length0);
    var cols := PySlice(b.wa, b.wb, a.Length1);
    var bright := Bright(Window(Grid(a, c, gray), rows.0, rows.1, cols.0, cols.1));
    RewriteWindow(a, rows.0, rows.1, cols.0, cols.1, OverlayMap(bright));
    GridRewritten(a, before, rows.0, rows.1, cols.0, cols.1, OverlayMap(bright));
  }

  /** `overlay_lines`: the same rewrite on the row band `[ha:hb, :]`, then
      on the column band `[:, wa:wb]` of the result. */
  function OverlayLines(im: Img, b: Box): (r: Img)
    ensures r.h == im.h && r.w == im.w && r.c == im.c && r.gray == im.gray
  {
    OverlayBox(OverlayBox(im, RowBand(b, im.w)), ColumnBand(b, im.h))
  }

  function RowBand(b: Box, w: nat): Box {
    Box(b.ha, b.hb, 0, w)
  }

  function ColumnBand(b: Box, h: nat): Box {
    Box(0, h, b.wa, b.wb)
  }

  /** Pixels outside both bands are kept; a pixel in one band is shifted
      once; a pixel in both is shifted twice, the column pass reading the
      value the row pass wrote and judging brightness on the rewritten
      image. */
  lemma OverlayLinesPixels(im: Img, b: Box, i: nat, j: nat, k: nat)
    requires i < im.h && j < im.w && k < im.c
    ensures var inRows := PySlice(b.ha, b.hb, im.h).0 <= i < PySlice(b.ha, b.hb, im.h).1;
      var inCols := PySlice(b.wa, b.wb, im.w).0 <= j < PySlice(b.wa, b.wb, im.w).1;
      var b1 := Bright(Slice(im, b.ha, b.hb, 0, im.w));
      var mid := OverlayBox(im, RowBand(b, im.w));
      var b2 := Bright(Slice(mid, 0, im.h, b.wa, b.wb));
      var p := im.px[i][j][k];
      var q := OverlayLines(im, b).px[i][j][k];
      && (!inRows && !inCols ==> q == p)
      && (inRows && !inCols ==> q == OverlayValue(p, b1))
      && (!inRows && inCols ==> q == OverlayValue(p, b2))
      && (inRows && inCols ==> q == OverlayValue(OverlayValue(p, b1), b2))
  {
    var mid := OverlayBox(im, RowBand(b, im.w));
    assert Covers(RowBand(b, im.w), im.h, im.w, i, j) <==> PySlice(b.ha, b.hb, im.h).0 <= i < PySlice(b.ha, b.hb, im.h).1;
    assert Covers(ColumnBand(b, im.h), im.h, im.w, i, j) <==> PySlice(b.wa, b.wb, im.w).0 <= j < PySlice(b.wa, b.wb, im.w).1;
  }

  /** `overlay_lines` on the array itself: two region rewrites in turn. */
  method OverlayLinesInPlace(a: array2<Pixel>, c: nat, gray: bool, b: Box)
    requires Uniform(a, c)
    modifies a
    ensures Uniform(a, c)
    ensures Grid(a, c, gray) == OverlayLines(old(Grid(a, c, gray)), b)
  {
    OverlayBoxInPlace(a, c, gray, RowBand(b, a.Length1));
    OverlayBoxInPlace(a, c, gray, ColumnBand(b, a.Length0));
  }

  /** `remove_lines`: `np.delete` of the row band, then of the column band. */
  function RemoveLines(im: Img, b: Box): (r: Img)
    ensures r.c == im.c && r.gray == im.gray
  {
    DeleteCols(DeleteRows(im, b.ha, b.hb), b.wa, b.wb)
  }

  /** With both bands inside the image, h - (hb - ha) rows and w - (wb - wa)
      columns remain, in their original order. */
  lemma RemoveLinesShape(im: Img, b: Box)
    requires 0 <= b.ha <= b.hb <= im.h && 0 <= b.wa <= b.wb <= im.w
    ensures var r := RemoveLines(im, b);
      && r.h == im.h - (b.hb - b.ha) && r.w == im.w - (b.wb - b.wa)
      && forall i, j :: 0 <= i < r.h && 0 <= j < r.w ==>
        r.px[i][j] == im.px[if i < b.ha then i else i + (b.hb - b.ha)][if j < b.wa then j else j + (b.wb - b.wa)]
  {
    var mid := DeleteRows(im, b.ha, b.hb);
    assert mid.h == im.h - (b.hb - b.ha);
  }

  /** `add_text`: cv2.putText at the origin the code computes. It unpacks
      getTextSize's (width, height) as `th, tw` and passes
      `((h - th) // 2, (w - tw) // 2)` as (x, y), so the caption is centred
      only on a square image. The pixels are the `text` oracle's. */
  function AddText(cv: Cv, im: Img, size: real, thickness: int): (r: Img)
    ensures r.h == im.h && r.w == im.w && r.c == im.c && r.gray == im.gray
  {
    Build(im.h, im.w, im.c, im.gray, (i, j, k) => cv.text(im, size, thickness, i, j, k))
  }

  /** The caption `add_text` draws. */
  const Caption: string := "Trufo! (watermark benchmark)"

  /** `int(np.sqrt(h * w / 1024))`: the floor of the real square root equals
      the integer square root of the floored quotient. */
  function SquareCount(h: nat, w: nat): (n: nat)
    ensures n * n <= h * w / 1024 < (n + 1) * (n + 1)
  {
    FloorSqrt(h * w / 1024)
  }

  /** The "many squares" mask: overlay_box over the boxes in turn, each on
      the image the previous ones left. */
  function OverlayAll(im: Img, bs: seq<Box>): (r: Img)
    ensures r.h == im.h && r.w == im.w && r.c == im.c && r.gray == im.gray
    decreases |bs|
  {
    if bs == [] then im else OverlayBox(OverlayAll(im, bs[..|bs| - 1]), bs[|bs| - 1])
  }

  /** A pixel that no box covers is kept. */
  lemma {:induction false} OverlayAllOutside(im: Img, bs: seq<Box>, i: nat, j: nat)
    requires i < im.h && j < im.w
    requires forall k :: 0 <= k < |bs| ==> !Covers(bs[k], im.h, im.w, i, j)
    ensures OverlayAll(im, bs).px[i][j] == im.px[i][j]
    decreases |bs|
  {
    if bs != [] {
      OverlayAllOutside(im, bs[..|bs| - 1], i, j);
    }
  }

  lemma OverlayAllSnoc(im: Img, bs: seq<Box>, i: nat)
    requires i < |bs|
    ensures OverlayAll(im, bs[..i + 1]) == OverlayBox(OverlayAll(im, bs[..i]), bs[i])
  {
    assert bs[..i + 1][..i] == bs[..i];
  }

  /** The loop of variant 2 on one copied array. */
  method ManySquares(image: Img, boxes: seq<Box>) returns (r: Img)
    ensures r == OverlayAll(image, boxes)
  {
    var a := ToArray(image);
    for i := 0 to |boxes|
      invariant Uniform(a, image.c)
      invariant Grid(a, image.c, image.gray) == OverlayAll(image, boxes[..i])
    {
      OverlayBoxInPlace(a, image.c, image.gray, boxes[i]);
      OverlayAllSnoc(image, boxes, i);
    }
    assert boxes[..|boxes|] == boxes;
    r := Grid(a, image.c, image.gray);
  }

  // ---------------------------------------------------------------------
  // The draws

  /** The drawn geometry of one block: one region, a list of squares, or
      nothing (the caption variants). */
  datatype Geometry = Boxed(box: Box) | Squares(boxes: seq<Box>) | Plain

  /** The corner square: rows (8, 40) on a coin, else (h - 40, h - 8), and
      likewise for the columns. */
  function Corner(top: bool, left: bool, h: int, w: int): Box {
    Box(if top then 8 else h - 40, if top then 40 else h - 8, if left then 8 else w - 40, if left then 40 else w - 8)
  }

  /** `ha, wa = integers([h - hx, w - wx])` and the hx x wx box placed there. */
  function PlacedBox(src: Stream, pos: nat, h: int, w: int, hx: int, wx: int): (r: (Result<Box>, nat)) {
    if h - hx <= 0 || w - wx <= 0 then (Err(ValueError), pos)
    else
      var ha := Draw(src, pos, 0, h - hx);
      var wa := Draw(src, pos + 1, 0, w - wx);
      (Ok(Box(ha, ha + hx, wa, wa + wx)), pos + 2)
  }

  /** `hx = integers(m, h // d)`, `wx = integers(m, w // d)`, then a placed
      box; an empty range raises ValueError. */
  function RandomBox(src: Stream, pos: nat, h: nat, w: nat, m: int, d: nat): (r: (Result<Box>, nat))
    requires d > 0
  {
    if h / d <= m then (Err(ValueError), pos)
    else if w / d <= m then (Err(ValueError), pos + 1)
    else PlacedBox(src, pos + 2, h, w, Draw(src, pos, m, h / d), Draw(src, pos + 1, m, w / d))
  }

  /** The 32 x 32 squares at drawn corners. */
  function SquareList(has: seq<int>, was: seq<int>): (r: seq<Box>)
    requires |has| == |was|
    ensures |r| == |has|
    ensures forall i :: 0 <= i < |has| ==> r[i] == Box(has[i], has[i] + 32, was[i], was[i] + 32)
  {
    seq(|has|, (i: int) requires 0 <= i < |has| => Box(has[i], has[i] + 32, was[i], was[i] + 32))
  }

  /** `has, was = integers(h - 32, size=n), integers(w - 32, size=n)`; with
      n == 0 both are empty and the bounds are not checked. */
  function SquareDraws(src: Stream, pos: nat, h: nat, w: nat): (r: (Result<Geometry>, nat)) {
    var n := SquareCount(h, w);
    if n == 0 then (Ok(Squares(SquareList([], []))), pos)
    else if h - 32 <= 0 then (Err(ValueError), pos)
    else if w - 32 <= 0 then (Err(ValueError), pos + n)
    else (Ok(Squares(SquareList(Draws(src, pos, h - 32, n), Draws(src, pos + n, w - 32, n)))), pos + 2 * n)
  }

  function AsBoxed(r: (Result<Box>, nat)): (Result<Geometry>, nat) {
    (if r.0.Ok? then Ok(Boxed(r.0.value)) else Err(r.0.error), r.1)
  }

  /** The draws of block k (variants 0-8) from stream position pos, and the
      position after them. */
  function StageDraw(src: Stream, pos: nat, h: nat, w: nat, k: nat): (r: (Result<Geometry>, nat))
    requires k < 9
  {
    if k == 0 then (Ok(Boxed(Corner(Coin(src, pos), Coin(src, pos + 1), h, w))), pos + 2)
    else if k == 1 then AsBoxed(RandomBox(src, pos, h, w, 32, 2))
    else if k == 2 then SquareDraws(src, pos, h, w)
    else if k == 3 || k == 5 then AsBoxed(PlacedBox(src, pos, h, w, 8, 8))
    else if k == 4 then AsBoxed(RandomBox(src, pos, h, w, 16, 4))
    else if k == 6 then AsBoxed(RandomBox(src, pos, h, w, 8, 8))
    else (Ok(Plain), pos)
  }

  /** Block k's draws raise: an empty range in one of its `integers` calls.
      This depends on the image size only. */
  predicate Fails(h: nat, w: nat, k: nat) {
    if k == 1 then h / 2 <= 32 || w / 2 <= 32
    else if k == 2 then (h <= 32 || w <= 32) && SquareCount(h, w) > 0
    else if k == 3 || k == 5 then h <= 8 || w <= 8
    else if k == 4 then h / 4 <= 16 || w / 4 <= 16
    else if k == 6 then h / 8 <= 8 || w / 8 <= 8
    else false
  }

  /** The stream values block k consumes when it does not raise. */
  function StageCost(h: nat, w: nat, k: nat): nat {
    if k == 0 || k == 3 || k == 5 then 2
    else if k == 1 || k == 4 || k == 6 then 4
    else if k == 2 then 2 * SquareCount(h, w)
    else 0
  }

  /** Block k raises ValueError exactly when `Fails` says so, whatever the
      stream; otherwise it consumes `StageCost` values. */
  lemma StageDrawFails(src: Stream, pos: nat, h: nat, w: nat, k: nat)
    requires k < 9
    ensures StageDraw(src, pos, h, w, k).0.Err? <==> Fails(h, w, k)
    ensures StageDraw(src, pos, h, w, k).0.Err? ==> StageDraw(src, pos, h, w, k).0.error == ValueError
    ensures !Fails(h, w, k) ==> StageDraw(src, pos, h, w, k).1 == pos + StageCost(h, w, k)
  {
  }

  /** One drawn region lies inside the image: lo <= hb - ha < hi rows from
      row 0 on, ending before row h, and likewise for the columns. */
  predicate Inside(b: Box, h: int, w: int, lo: int, hiRows: int, hiCols: int) {
    && 0 <= b.ha && lo <= b.hb - b.ha < hiRows && b.hb < h
    && 0 <= b.wa && lo <= b.wb - b.wa < hiCols && b.wb < w
  }

  /** The geometry of block k, as the draws guarantee it. */
  predicate StageGeometry(h: nat, w: nat, k: nat, g: Geometry) {
    if k == 0 then g.Boxed? && (exists top: bool, left: bool :: g.box == Corner(top, left, h, w))
    else if k == 1 then g.Boxed? && Inside(g.box, h, w, 32, h / 2, w / 2)
    else if k == 2 then
      && g.Squares? && |g.boxes| == SquareCount(h, w)
      && forall i :: 0 <= i < |g.boxes| ==> Inside(g.boxes[i], h, w, 32, 33, 33)
    else if k == 3 || k == 5 then g.Boxed? && Inside(g.box, h, w, 8, 9, 9)
    else if k == 4 then g.Boxed? && Inside(g.box, h, w, 16, h / 4, w / 4)
    else if k == 6 then g.Boxed? && Inside(g.box, h, w, 8, h / 8, w / 8)
    else g.Plain?
  }

  /** What each block draws: the corner square, boxes and bands inside the
      image, and n = int(sqrt(h * w / 1024)) squares of 32 x 32. */
  lemma StageDrawGeometry(src: Stream, pos: nat, h: nat, w: nat, k: nat)
    requires k < 9 && StageDraw(src, pos, h, w, k).0.Ok?
    ensures StageGeometry(h, w, k, StageDraw(src, pos, h, w, k).0.value)
  {
    if k == 0 {
      var g := StageDraw(src, pos, h, w, k).0.value;
      assert g.box == Corner(Coin(src, pos), Coin(src, pos + 1), h, w);
    } else if k == 1 {
      RandomBoxInside(src, pos, h, w, 32, 2);
    } else if k == 2 {
      SquaresInside(src, pos, h, w);
    } else if k == 3 || k == 5 {
      PlacedBoxInside(src, pos, h, w, 8, 8);
    } else if k == 4 {
      RandomBoxInside(src, pos, h, w, 16, 4);
    } else if k == 6 {
      RandomBoxInside(src, pos, h, w, 8, 8);
    }
  }

  lemma PlacedBoxInside(src: Stream, pos: nat, h: int, w: int, hx: int, wx: int)
    requires 0 <= hx && 0 <= wx && PlacedBox(src, pos, h, w, hx, wx).0.Ok?
    ensures var b := PlacedBox(src, pos, h, w, hx, wx).0.value;
      && 0 <= b.ha && b.hb - b.ha == hx && b.hb < h
      && 0 <= b.wa && b.wb - b.wa == wx && b.wb < w
  {
  }

  lemma RandomBoxInside(src: Stream, pos: nat, h: nat, w: nat, m: int, d: nat)
    requires d > 0 && 0 <= m && RandomBox(src, pos, h, w, m, d).0.Ok?
    ensures Inside(RandomBox(src, pos, h, w, m, d).0.value, h, w, m, h / d, w / d)
  {
    var hx := Draw(src, pos, m, h / d);
    var wx := Draw(src, pos + 1, m, w / d);
    PlacedBoxInside(src, pos + 2, h, w, hx, wx);
  }

  lemma SquaresInside(src: Stream, pos: nat, h: nat, w: nat)
    requires SquareDraws(src, pos, h, w).0.Ok?
    ensures StageGeometry(h, w, 2, SquareDraws(src, pos, h, w).0.value)
  {
    var n := SquareCount(h, w);
    if n > 0 {
      var has, was := Draws(src, pos, h - 32, n), Draws(src, pos + n, w - 32, n);
      var bs := SquareList(has, was);
      assert SquareDraws(src, pos, h, w).0.value == Squares(bs);
      forall i | 0 <= i < n
        ensures Inside(bs[i], h, w, 32, 33, 33)
      {
        assert bs[i] == Box(has[i], has[i] + 32, was[i], was[i] + 32);
      }
    }
  }

  // ---------------------------------------------------------------------
  // The plan: every block's draws, independent of the requested indices

  /** The geometries of blocks k.. in order, up to the first block whose
      draws raise, that exception, and the stream position at the end. */
  datatype Plan = Plan(stages: seq<Geometry>, stop: Option<Error>, cursor: nat)

  function AlterAPlan(src: Stream, pos: nat, h: nat, w: nat, k: nat): (p: Plan)
    requires k <= 9
    ensures |p.stages| <= 9 - k
    decreases 9 - k
  {
    if k == 9 then Plan([], None, pos)
    else
      var d := StageDraw(src, pos, h, w, k);
      if d.0.Err? then Plan([], Some(d.0.error), d.1)
      else
        var rest := AlterAPlan(src, d.1, h, w, k + 1);
        Plan([d.0.value] + rest.stages, rest.stop, rest.cursor)
  }

  /** The first block from k on whose draws raise (9 when none does). */
  function FirstFail(h: nat, w: nat, k: nat): (r: nat)
    requires k <= 9
    ensures k <= r <= 9
    decreases 9 - k
  {
    if k == 9 then 9 else if Fails(h, w, k) then k else FirstFail(h, w, k + 1)
  }

  /** The plan holds the blocks before the first failing one; it raises
      ValueError exactly when some block fails. */
  lemma {:induction false} PlanLength(src: Stream, pos: nat, h: nat, w: nat, k: nat)
    requires k <= 9
    ensures |AlterAPlan(src, pos, h, w, k).stages| == FirstFail(h, w, k) - k
    ensures AlterAPlan(src, pos, h, w, k).stop.None? <==> FirstFail(h, w, k) == 9
    ensures AlterAPlan(src, pos, h, w, k).stop.Some? ==> AlterAPlan(src, pos, h, w, k).stop.value == ValueError
    decreases 9 - k
  {
    if k < 9 {
      StageDrawFails(src, pos, h, w, k);
      if !Fails(h, w, k) {
        PlanLength(src, StageDraw(src, pos, h, w, k).1, h, w, k + 1);
      }
    }
  }

  /** The draws of an image below 66 rows or columns stop after variant
      0's block; below 68 after block 3, below 72 after block 5. */
  lemma FirstFailValue(h: nat, w: nat)
    ensures FirstFail(h, w, 0) ==
      if h < 66 || w < 66 then 1 else if h < 68 || w < 68 then 4 else if h < 72 || w < 72 then 6 else 9
  {
    assert !Fails(h, w, 0);
    if h >= 66 && w >= 66 {
      assert !Fails(h, w, 1) && !Fails(h, w, 2) && !Fails(h, w, 3);
      if h >= 68 && w >= 68 {
        assert !Fails(h, w, 4) && !Fails(h, w, 5);
        if h >= 72 && w >= 72 {
          assert !Fails(h, w, 6) && !Fails(h, w, 7) && !Fails(h, w, 8);
        }
      }
    }
  }

  /** The total cost of blocks k..8. */
  function CostFrom(h: nat, w: nat, k: nat): nat
    requires k <= 9
    decreases 9 - k
  {
    if k == 9 then 0 else StageCost(h, w, k) + CostFrom(h, w, k + 1)
  }

  /** A plan without failures consumes exactly the blocks' costs. */
  lemma {:induction false} PlanCursor(src: Stream, pos: nat, h: nat, w: nat, k: nat)
    requires k <= 9 && FirstFail(h, w, k) == 9
    ensures AlterAPlan(src, pos, h, w, k).cursor == pos + CostFrom(h, w, k)
    decreases 9 - k
  {
    if k < 9 {
      StageDrawFails(src, pos, h, w, k);
      PlanCursor(src, StageDraw(src, pos, h, w, k).1, h, w, k + 1);
    }
  }

  /** Every planned block has the geometry its draws guarantee. */
  lemma {:induction false} PlanGeometry(src: Stream, pos: nat, h: nat, w: nat, k: nat)
    requires k <= 9
    ensures var p := AlterAPlan(src, pos, h, w, k);
      forall i :: 0 <= i < |p.stages| ==> StageGeometry(h, w, k + i, p.stages[i])
    decreases 9 - k
  {
    if k < 9 && StageDraw(src, pos, h, w, k).0.Ok? {
      var d := StageDraw(src, pos, h, w, k);
      StageDrawGeometry(src, pos, h, w, k);
      PlanGeometry(src, d.1, h, w, k + 1);
      var rest := AlterAPlan(src, d.1, h, w, k + 1);
      var p := AlterAPlan(src, pos, h, w, k);
      forall i | 0 <= i < |p.stages|
        ensures StageGeometry(h, w, k + i, p.stages[i])
      {
        if i > 0 {
          assert p.stages[i] == rest.stages[i - 1];
        }
      }
    }
  }


  // ---------------------------------------------------------------------
  // The variants

  /** The `'alteration'` label of variant k. */
  function AlterALabel(k: nat): string
    requires k < 9
  {
    [ "mask-corner-square", "mask-random-rectangle", "mask-many-squares",
      "mask-small-lines", "mask-random-lines", "remove-small-lines",
      "remove-random-lines", "text-small", "text-large" ][k]
  }

  function AlterAParams(k: nat): Params
    requires k < 9
  {
    map[Key("alteration") := StrV(AlterALabel(k))]
  }

  /** Variants 0-4 subscript the array as `[ha:hb, wa:wb, :]`, variant 2
      once per square (so not at all when there are none). */
  predicate IndexesChannels(k: nat, g: Geometry) {
    (g.Boxed? && k <= 4) || (g.Squares? && |g.boxes| > 0)
  }

  /** The image of variant k from its block's geometry: a box for 0 and 1,
      the squares for 2, lines for 3 and 4, removed lines for 5 and 6, and
      the caption at scale 0.5 and thickness 1 (7) or at n // 16 and
      n // 2 (8). A two-dimensional array has no third axis to subscript:
      the overlays raise IndexError on it. */
  function AlterAImage(cv: Cv, image: Img, k: nat, g: Geometry): Result<Img> {
    if image.gray && IndexesChannels(k, g) then Err(IndexError)
    else match g
      case Boxed(b) =>
        if k <= 1 then Ok(OverlayBox(image, b))
        else if k <= 4 then Ok(OverlayLines(image, b))
        else Ok(RemoveLines(image, b))
      case Squares(bs) => Ok(OverlayAll(image, bs))
      case Plain =>
        if k == 7 then Ok(AddText(cv, image, 0.5, 1))
        else
          var n := SquareCount(image.h, image.w);
          Ok(AddText(cv, image, (n / 16) as real, n / 2))
  }

  /** The step of block k: its variant, or the exception its image raised. */
  function AlterAStep(cv: Cv, image: Img, k: nat, g: Geometry): (r: Step)
    requires k < 9
    ensures Yields(r) || Raises(r)
    ensures Yields(r) ==> AlterAImage(cv, image, k, g).Ok? && r.value.value == Variant(k, AlterAParams(k), AlterAImage(cv, image, k, g).value)
  {
    match AlterAImage(cv, image, k, g)
    case Ok(im) => Some(Ok(Variant(k, AlterAParams(k), im)))
    case Err(e) => Some(Err(e))
  }

  /** The step each planned block takes when requested. */
  function AlterASteps(cv: Cv, image: Img, stages: seq<Geometry>): (r: seq<Step>)
    requires |stages| <= 9
    ensures |r| == |stages|
    decreases |stages|
  {
    if stages == [] then []
    else AlterASteps(cv, image, stages[..|stages| - 1]) + [AlterAStep(cv, image, |stages| - 1, stages[|stages| - 1])]
  }

  lemma {:induction false} AlterAStepsAt(cv: Cv, image: Img, stages: seq<Geometry>, k: nat)
    requires |stages| <= 9 && k < |stages|
    ensures AlterASteps(cv, image, stages)[k] == AlterAStep(cv, image, k, stages[k])
    decreases |stages|
  {
    if k < |stages| - 1 {
      AlterAStepsAt(cv, image, stages[..|stages| - 1], k);
    }
  }

  /** Step k, when it yields, yields variant k. */
  lemma AlterAStepsIndexed(cv: Cv, image: Img, stages: seq<Geometry>)
    requires |stages| <= 9
    ensures Indexed(AlterASteps(cv, image, stages))
  {
    forall k | 0 <= k < |stages|
      ensures AlterASteps(cv, image, stages)[k] == AlterAStep(cv, image, k, stages[k])
    {
      AlterAStepsAt(cv, image, stages, k);
    }
  }

  /** The stream position when `generate` stops: after the draws of the
      block whose draws raise, or of the first requested block whose image
      raises, or after all nine blocks. */
  function AlterACursor(src: Stream, pos: nat, indices: seq<int>, image: Img, k: nat): nat
    requires k <= 9
    decreases 9 - k
  {
    if k == 9 then pos
    else
      var d := StageDraw(src, pos, image.h, image.w, k);
      if d.0.Err? || (k in indices && image.gray && IndexesChannels(k, d.0.value)) then d.1
      else AlterACursor(src, d.1, indices, image, k + 1)
  }

  /** `IEAlterA.generate` run to the end: the requested variants of the
      planned blocks, in block order, up to the first requested image that
      raises, then the plan's exception; and the stream position afterwards. */
  function AlterARun(cv: Cv, src: Stream, pos: nat, indices: seq<int>, image: Img): (Gen, nat) {
    var p := AlterAPlan(src, pos, image.h, image.w, 0);
    (Then(Collect(AlterASteps(cv, image, p.stages), indices, 0), Gen([], p.stop)), AlterACursor(src, pos, indices, image, 0))
  }

  /** For a three-dimensional array no image raises, and the run ends where
      the plan does. */
  lemma {:induction false} CursorOfColour(src: Stream, pos: nat, indices: seq<int>, image: Img, k: nat)
    requires k <= 9 && !image.gray
    ensures AlterACursor(src, pos, indices, image, k) == AlterAPlan(src, pos, image.h, image.w, k).cursor
    decreases 9 - k
  {
    if k < 9 {
      var d := StageDraw(src, pos, image.h, image.w, k);
      if d.0.Ok? {
        CursorOfColour(src, d.1, indices, image, k + 1);
      }
    }
  }

  /** Variants come in ascending index order whatever the order of
      `indices`, each with index below 9 and its fixed label. */
  lemma AlterAOrder(cv: Cv, src: Stream, pos: nat, indices: seq<int>, image: Img)
    ensures var g := AlterARun(cv, src, pos, indices, image).0;
      && Ascending(g.variants)
      && forall k :: 0 <= k < |g.variants| ==>
        (0 <= g.variants[k].index < 9 && g.variants[k].params == AlterAParams(g.variants[k].index))
  {
    var p := AlterAPlan(src, pos, image.h, image.w, 0);
    var steps := AlterASteps(cv, image, p.stages);
    AlterAStepsIndexed(cv, image, p.stages);
    CollectAscending(steps, indices, 0);
    var g := AlterARun(cv, src, pos, indices, image).0;
    forall k | 0 <= k < |g.variants|
      ensures 0 <= g.variants[k].index < 9 && g.variants[k].params == AlterAParams(g.variants[k].index)
    {
      CollectAt(steps, indices, 0, k);
      AlterAStepsAt(cv, image, p.stages, g.variants[k].index);
    }
  }

  /** On a three-dimensional array index x is yielded exactly when it is
      requested and the draws of blocks 0..x do not raise; the generator
      raises ValueError exactly when some block's draws do. */
  lemma AlterAMembers(cv: Cv, src: Stream, pos: nat, indices: seq<int>, image: Img, x: int)
    requires !image.gray
    ensures var g := AlterARun(cv, src, pos, indices, image).0;
      && (x in IndexList(g) <==> 0 <= x < FirstFail(image.h, image.w, 0) && x in indices)
      && (g.stop.None? <==> FirstFail(image.h, image.w, 0) == 9)
      && (g.stop.Some? ==> g.stop.value == ValueError)
  {
    var p := AlterAPlan(src, pos, image.h, image.w, 0);
    var steps := AlterASteps(cv, image, p.stages);
    AlterAStepsIndexed(cv, image, p.stages);
    PlanLength(src, pos, image.h, image.w, 0);
    var c := Collect(steps, indices, 0);
    assert c.stop.None? && IndexList(c) == IndexList(AlterARun(cv, src, pos, indices, image).0) by {
      forall j | 0 <= j < |steps|
        ensures Yields(steps[j])
      {
        AlterAStepsAt(cv, image, p.stages, j);
        ColourYields(cv, image, j, p.stages[j]);
      }
      CollectStop(steps, indices, 0);
    }
    assert x in IndexList(c) <==> 0 <= x < |steps| && x in indices by {
      forall j | 0 <= j < |steps|
        ensures Yields(steps[j])
      {
        AlterAStepsAt(cv, image, p.stages, j);
        ColourYields(cv, image, j, p.stages[j]);
      }
      CollectMember(steps, indices, 0, x);
    }
  }

  /** On a three-dimensional array every block's image exists. */
  lemma ColourYields(cv: Cv, image: Img, k: nat, g: Geometry)
    requires k < 9 && !image.gray
    ensures Yields(AlterAStep(cv, image, k, g))
  {
  }

  /** A two-dimensional array requested for variant 0 raises IndexError at
      once, after the two coin flips. */
  lemma AlterAGrayRaises(cv: Cv, src: Stream, pos: nat, indices: seq<int>, image: Img)
    requires image.gray && 0 in indices
    ensures AlterARun(cv, src, pos, indices, image) == (Gen([], Some(IndexError)), pos + 2)
  {
    var p := AlterAPlan(src, pos, image.h, image.w, 0);
    var steps := AlterASteps(cv, image, p.stages);
    AlterAStepsIndexed(cv, image, p.stages);
    assert |p.stages| > 0;
    AlterAStepsAt(cv, image, p.stages, 0);
    assert Raises(steps[0]);
  }

  /** The draws do not depend on the requested subset: a variant two runs
      both yield is the same variant, and on a three-dimensional array the
      runs end at the same stream position. */
  lemma AlterAIndexIndependent(cv: Cv, src: Stream, pos: nat, i1: seq<int>, i2: seq<int>, image: Img, a: nat, b: nat)
    requires a < |AlterARun(cv, src, pos, i1, image).0.variants|
    requires b < |AlterARun(cv, src, pos, i2, image).0.variants|
    requires AlterARun(cv, src, pos, i1, image).0.variants[a].index == AlterARun(cv, src, pos, i2, image).0.variants[b].index
    ensures !image.gray ==> AlterARun(cv, src, pos, i1, image).1 == AlterARun(cv, src, pos, i2, image).1
    ensures AlterARun(cv, src, pos, i1, image).0.variants[a] == AlterARun(cv, src, pos, i2, image).0.variants[b]
  {
    var p := AlterAPlan(src, pos, image.h, image.w, 0);
    var steps := AlterASteps(cv, image, p.stages);
    AlterAStepsIndexed(cv, image, p.stages);
    CollectAt(steps, i1, 0, a);
    CollectAt(steps, i2, 0, b);
    if !image.gray {
      CursorOfColour(src, pos, i1, image, 0);
      CursorOfColour(src, pos, i2, image, 0);
    }
  }

  /** On a three-dimensional array, a run whose draws raise nothing consumes
      18 + 2n stream values, n the number of squares. */
  lemma AlterADrawCount(cv: Cv, src: Stream, pos: nat, indices: seq<int>, image: Img)
    requires FirstFail(image.h, image.w, 0) == 9 && !image.gray
    ensures AlterARun(cv, src, pos, indices, image).1 == pos + 18 + 2 * SquareCount(image.h, image.w)
  {
    CursorOfColour(src, pos, indices, image, 0);
    PlanCursor(src, pos, image.h, image.w, 0);
  }

  /** Each yielded variant's geometry: the corner square, boxes and bands
      inside the image, and the n squares of 32 x 32. */
  lemma AlterAGeometry(cv: Cv, src: Stream, pos: nat, indices: seq<int>, image: Img, k: nat)
    requires k < |AlterARun(cv, src, pos, indices, image).0.variants|
    ensures var v := AlterARun(cv, src, pos, indices, image).0.variants[k];
      var p := AlterAPlan(src, pos, image.h, image.w, 0);
      && 0 <= v.index < |p.stages|
      && StageGeometry(image.h, image.w, v.index, p.stages[v.index])
      && Ok(v.image) == AlterAImage(cv, image, v.index, p.stages[v.index])
  {
    var p := AlterAPlan(src, pos, image.h, image.w, 0);
    var steps := AlterASteps(cv, image, p.stages);
    AlterAStepsIndexed(cv, image, p.stages);
    CollectAt(steps, indices, 0, k);
    var v := Collect(steps, indices, 0).variants[k];
    AlterAStepsAt(cv, image, p.stages, v.index);
    PlanGeometry(src, pos, image.h, image.w, 0);
  }

  // ---------------------------------------------------------------------
  // The generator as the code runs it

  /** `ha, wa = self.rng.integers([h - hx, w - wx])` and the box. */
  method DrawPlacedBox(rng: Generator, h: int, w: int, hx: int, wx: int) returns (r: Result<Box>)
    modifies rng
    ensures r == PlacedBox(rng.source, old(rng.cursor), h, w, hx, wx).0
    ensures rng.cursor == PlacedBox(rng.source, old(rng.cursor), h, w, hx, wx).1
  {
    var p := rng.IntegersPair(h - hx, w - wx);
    if p.None? {
      return Err(ValueError);
    }
    r := Ok(Box(p.value.0, p.value.0 + hx, p.value.1, p.value.1 + wx));
  }

  /** `hx, wx = self.rng.integers(m, h // d), self.rng.integers(m, w // d)`
      and a placed box. */
  method DrawRandomBox(rng: Generator, h: nat, w: nat, m: int, d: nat) returns (r: Result<Box>)
    requires d > 0
    modifies rng
    ensures r == RandomBox(rng.source, old(rng.cursor), h, w, m, d).0
    ensures rng.cursor == RandomBox(rng.source, old(rng.cursor), h, w, m, d).1
  {
    var hx := rng.Integers(m, h / d);
    if hx.None? {
      return Err(ValueError);
    }
    var wx := rng.Integers(m, w / d);
    if wx.None? {
      return Err(ValueError);
    }
    r := DrawPlacedBox(rng, h, w, hx.value, wx.value);
  }

  /** `has, was = self.rng.integers(h - 32, size=n), self.rng.integers(w - 32, size=n)`. */
  method DrawSquares(rng: Generator, h: nat, w: nat) returns (r: Result<Geometry>)
    modifies rng
    ensures r == SquareDraws(rng.source, old(rng.cursor), h, w).0
    ensures rng.cursor == SquareDraws(rng.source, old(rng.cursor), h, w).1
  {
    var n := SquareCount(h, w);
    var has := rng.IntegersN(h - 32, n);
    if has.None? {
      return Err(ValueError);
    }
    var was := rng.IntegersN(w - 32, n);
    if was.None? {
      return Err(ValueError);
    }
    r := Ok(Squares(SquareList(has.value, was.value)));
  }

  /** The draws of block k. */
  method DrawStage(rng: Generator, h: nat, w: nat, k: nat) returns (r: Result<Geometry>)
    requires k < 9
    modifies rng
    ensures r == StageDraw(rng.source, old(rng.cursor), h, w, k).0
    ensures rng.cursor == StageDraw(rng.source, old(rng.cursor), h, w, k).1
  {
    if k == 0 {
      var top := rng.CoinFlip();
      var left := rng.CoinFlip();
      r := Ok(Boxed(Corner(top, left, h, w)));
    } else if k == 2 {
      r := DrawSquares(rng, h, w);
    } else if k == 3 || k == 5 {
      var b := DrawPlacedBox(rng, h, w, 8, 8);
      r := if b.Ok? then Ok(Boxed(b.value)) else Err(b.error);
    } else if k == 1 || k == 4 || k == 6 {
      var m, d := if k == 1 then 32 else if k == 4 then 16 else 8, if k == 1 then 2 else if k == 4 then 4 else 8;
      var b := DrawRandomBox(rng, h, w, m, d);
      r := if b.Ok? then Ok(Boxed(b.value)) else Err(b.error);
    } else {
      r := Ok(Plain);
    }
  }

  /** Variant k's image, computed on a copy as the code does: the overlays
      write into a copied array, the rest are expressions. */
  method AlterAImageOf(cv: Cv, image: Img, k: nat, g: Geometry) returns (r: Result<Img>)
    ensures r == AlterAImage(cv, image, k, g)
  {
    if image.gray && IndexesChannels(k, g) {
      return Err(IndexError);
    }
    match g
    case Boxed(b) =>
      if k <= 4 {
        var a := ToArray(image);
        if k <= 1 {
          OverlayBoxInPlace(a, image.c, image.gray, b);
        } else {
          OverlayLinesInPlace(a, image.c, image.gray, b);
        }
        r := Ok(Grid(a, image.c, image.gray));
      } else {
        r := Ok(RemoveLines(image, b));
      }
    case Squares(bs) =>
      var im := ManySquares(image, bs);
      r := Ok(im);
    case Plain =>
      r := AlterAImage(cv, image, k, g);
  }

  /** The blocks from k on, still to run at stream position pos, account for
      the rest of a run whose plan has the given stages and exception and
      which ends at stream position `last`. */
  ghost predicate PlanAt(src: Stream, indices: seq<int>, image: Img, pos: nat, k: nat, stages: seq<Geometry>, stop: Option<Error>, last: nat)
    requires k <= 9
  {
    var pk := AlterAPlan(src, pos, image.h, image.w, k);
    && |stages| == k + |pk.stages| && stages[k..] == pk.stages && stop == pk.stop
    && last == AlterACursor(src, pos, indices, image, k)
  }

  /** What block k's draws mean for the plan and the run: a raising draw
      ends both; otherwise its geometry is the plan's entry k, and either
      a requested image raises on it (ending the run there) or the rest of
      the plan starts after the draws. */
  lemma BlockDrawn(src: Stream, indices: seq<int>, image: Img, pos: nat, k: nat, stages: seq<Geometry>, stop: Option<Error>, last: nat)
    requires k < 9 && PlanAt(src, indices, image, pos, k, stages, stop, last)
    ensures var d := StageDraw(src, pos, image.h, image.w, k);
      && (d.0.Err? ==> |stages| == k && stop == Some(d.0.error) && last == d.1)
      && (d.0.Ok? ==> k < |stages| && stages[k] == d.0.value)
      && (d.0.Ok? && k in indices && image.gray && IndexesChannels(k, d.0.value) ==> last == d.1)
      && (d.0.Ok? && !(k in indices && image.gray && IndexesChannels(k, d.0.value)) ==>
            PlanAt(src, indices, image, d.1, k + 1, stages, stop, last))
  {
    var d := StageDraw(src, pos, image.h, image.w, k);
    if d.0.Ok? {
      assert stages[k + 1..] == stages[k..][1..];
    }
  }

  /** One block of `generate`: its draws, then `if k in self.indices:` its
      variant on a copy of the image. */
  method AlterABlock(cv: Cv, rng: Generator, indices: seq<int>, image: Img, k: nat, vs: seq<Variant>,
                     ghost steps: seq<Step>, ghost stages: seq<Geometry>, ghost stop0: Option<Error>, ghost last: nat)
    returns (vs': seq<Variant>, stop: Option<Error>)
    requires k < 9 && PlanAt(rng.source, indices, image, rng.cursor, k, stages, stop0, last)
    requires |stages| <= 9 && steps == AlterASteps(cv, image, stages)
    requires Resumes(steps, indices, vs, k)
    modifies rng
    ensures stop.None? ==> PlanAt(rng.source, indices, image, rng.cursor, k + 1, stages, stop0, last)
    ensures stop.None? ==> Resumes(steps, indices, vs', k + 1)
    ensures stop.Some? ==> Then(Collect(steps, indices, 0), Gen([], stop0)) == Gen(vs', stop) && rng.cursor == last
  {
    BlockDrawn(rng.source, indices, image, rng.cursor, k, stages, stop0, last);
    var d := DrawStage(rng, image.h, image.w, k);
    if d.Err? {
      ResumeEnd(steps, indices, vs);
      assert vs + [] == vs;
      return vs, Some(d.error);
    }
    AlterAStepsAt(cv, image, stages, k);
    vs', stop := vs, None;
    if k in indices {
      var im := AlterAImageOf(cv, image, k, d.value);
      if im.Err? {
        ResumeRaise(steps, indices, vs, k);
        return vs, Some(im.error);
      }
      ResumeYield(steps, indices, vs, k);
      vs' := vs + [Variant(k, AlterAParams(k), im.value)];
    } else {
      ResumeSkip(steps, indices, vs, k);
    }
  }

  /** The five overlay blocks of `IEAlterA.generate` (rectangles,
      pattern, lines), from block 0 on. */
  method AlterAOverlays(cv: Cv, rng: Generator, indices: seq<int>, image: Img, vs: seq<Variant>,
                        ghost steps: seq<Step>, ghost stages: seq<Geometry>, ghost stop0: Option<Error>, ghost last: nat)
    returns (vs': seq<Variant>, stop: Option<Error>)
    requires PlanAt(rng.source, indices, image, rng.cursor, 0, stages, stop0, last)
    requires |stages| <= 9 && steps == AlterASteps(cv, image, stages)
    requires Resumes(steps, indices, vs, 0)
    modifies rng
    ensures stop.None? ==> PlanAt(rng.source, indices, image, rng.cursor, 5, stages, stop0, last)
    ensures stop.None? ==> Resumes(steps, indices, vs', 5)
    ensures stop.Some? ==> Then(Collect(steps, indices, 0), Gen([], stop0)) == Gen(vs', stop) && rng.cursor == last
  {
    hide *;
    // overlay, rectangles
    vs', stop := AlterABlock(cv, rng, indices, image, 0, vs, steps, stages, stop0, last);
    if stop.Some? { return; }
    vs', stop := AlterABlock(cv, rng, indices, image, 1, vs', steps, stages, stop0, last);
    if stop.Some? { return; }
    // overlay, pattern
    vs', stop := AlterABlock(cv, rng, indices, image, 2, vs', steps, stages, stop0, last);
    if stop.Some? { return; }
    // overlay, lines
    vs', stop := AlterABlock(cv, rng, indices, image, 3, vs', steps, stages, stop0, last);
    if stop.Some? { return; }
    vs', stop := AlterABlock(cv, rng, indices, image, 4, vs', steps, stages, stop0, last);
  }

  /** The remove-lines and text blocks of `IEAlterA.generate`, from
      block 5 on. */
  method AlterARemoveAndText(cv: Cv, rng: Generator, indices: seq<int>, image: Img, vs: seq<Variant>,
                             ghost steps: seq<Step>, ghost stages: seq<Geometry>, ghost stop0: Option<Error>, ghost last: nat)
    returns (vs': seq<Variant>, stop: Option<Error>)
    requires PlanAt(rng.source, indices, image, rng.cursor, 5, stages, stop0, last)
    requires |stages| <= 9 && steps == AlterASteps(cv, image, stages)
    requires Resumes(steps, indices, vs, 5)
    modifies rng
    ensures stop.None? ==> PlanAt(rng.source, indices, image, rng.cursor, 9, stages, stop0, last)
    ensures stop.None? ==> Resumes(steps, indices, vs', 9)
    ensures stop.Some? ==> Then(Collect(steps, indices, 0), Gen([], stop0)) == Gen(vs', stop) && rng.cursor == last
  {
    hide *;
    // remove, lines
    vs', stop := AlterABlock(cv, rng, indices, image, 5, vs, steps, stages, stop0, last);
    if stop.Some? { return; }
    vs', stop := AlterABlock(cv, rng, indices, image, 6, vs', steps, stages, stop0, last);
    if stop.Some? { return; }
    // text
    vs', stop := AlterABlock(cv, rng, indices, image, 7, vs', steps, stages, stop0, last);
    if stop.Some? { return; }
    vs', stop := AlterABlock(cv, rng, indices, image, 8, vs', steps, stages, stop0, last);
  }

  /** `IEAlterA.generate`: the nine blocks in order; the first block whose
      draws or requested image raise ends the generator. */
  method AlterAGenerate(cv: Cv, rng: Generator, indices: seq<int>, image: Img) returns (g: Gen)
    modifies rng
    ensures (g, rng.cursor) == AlterARun(cv, rng.source, old(rng.cursor), indices, image)
  {
    ghost var p := AlterAPlan(rng.source, rng.cursor, image.h, image.w, 0);
    ghost var steps := AlterASteps(cv, image, p.stages);
    ghost var last := AlterACursor(rng.source, rng.cursor, indices, image, 0);
    AlterAStart(cv, rng.source, rng.cursor, indices, image, steps, p.stages, p.stop, last);
    hide *;
    var vs: seq<Variant>, stop: Option<Error>;
    vs, stop := AlterAOverlays(cv, rng, indices, image, [], steps, p.stages, p.stop, last);
    if stop.Some? { return Gen(vs, stop); }
    vs, stop := AlterARemoveAndText(cv, rng, indices, image, vs, steps, p.stages, p.stop, last);
    if stop.Some? { return Gen(vs, stop); }
    AlterAEnd(rng.source, indices, image, rng.cursor, vs, steps, p.stages, p.stop, last);
    g := Gen(vs, None);
  }

  /** Before block 0 nothing is yielded, and the run is the plan's. */
  lemma AlterAStart(cv: Cv, src: Stream, pos: nat, indices: seq<int>, image: Img,
                    steps: seq<Step>, stages: seq<Geometry>, stop: Option<Error>, last: nat)
    requires stages == AlterAPlan(src, pos, image.h, image.w, 0).stages && stop == AlterAPlan(src, pos, image.h, image.w, 0).stop
    requires steps == AlterASteps(cv, image, stages) && last == AlterACursor(src, pos, indices, image, 0)
    ensures PlanAt(src, indices, image, pos, 0, stages, stop, last)
    ensures |stages| <= 9
    ensures Resumes(steps, indices, [], 0)
    ensures AlterARun(cv, src, pos, indices, image) == (Then(Collect(steps, indices, 0), Gen([], stop)), last)
  {
    assert stages[0..] == stages;
    ResumeStart(steps, indices);
  }

  /** After block 8 the run is what was yielded, with no exception. */
  lemma AlterAEnd(src: Stream, indices: seq<int>, image: Img, pos: nat, vs: seq<Variant>,
                  steps: seq<Step>, stages: seq<Geometry>, stop: Option<Error>, last: nat)
    requires PlanAt(src, indices, image, pos, 9, stages, stop, last) && |steps| == |stages|
    requires Resumes(steps, indices, vs, 9)
    ensures Then(Collect(steps, indices, 0), Gen([], stop)) == Gen(vs, None) && pos == last
  {
    ResumeEnd(steps, indices, vs);
    assert vs + [] == vs;
  }
}
