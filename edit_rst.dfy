/** benchmark/image/edit_rst.py: the geometric families IECrop, IERescale,
    IERotateA and IERotateB. */
module EditRst {
  import opened Common
  import opened Frames
  import opened Random
  import opened Edit

  // ---------------------------------------------------------------- IECrop

  /** The edges of a cropping in the order the drawing loops visit them:
      top, bottom, left, right (`cropping[ra][rb]` is edge 2*ra + rb). */
  function Edges(c: Cropping): (r: seq<int>)
    ensures |r| == 4
  {
    [c.top, c.bottom, c.left, c.right]
  }

  /** The working `cropping` list of lists as a cropping. */
  function AsCropping(m: seq<seq<int>>): Cropping
    requires |m| == 2 && |m[0]| == 2 && |m[1]| == 2
  {
    Cropping(m[0][0], m[0][1], m[1][0], m[1][1])
  }

  /** The zero cropping with edge `cropping[ra][rb]` set to v. */
  function OneSide(ra: int, rb: int, v: int): (c: Cropping)
    requires 0 <= ra < 2 && 0 <= rb < 2
    ensures Edges(c)[2 * ra + rb] == v
    ensures forall e :: 0 <= e < 4 && e != 2 * ra + rb ==> Edges(c)[e] == 0
  {
    AsCropping([[0, 0], [0, 0]][ra := [0, 0][rb := v]])
  }

  /** The bound of the draw for edge e of an arbitrary cropping: 5*ch for
      top and bottom, 5*cw for left and right. */
  function EdgeBound(e: nat, ch: int, cw: int): int {
    5 * (if e < 2 then ch else cw)
  }

  /** One edge of an arbitrary cropping, read at stream position pos: a coin;
      when it shows 1, a draw below `bound`, which raises ValueError when the
      bound is not positive. Also returns the position after the draws. */
  function ArbitraryEdge(src: Stream, pos: nat, bound: int): (r: (Result<int>, nat))
    ensures r.0.Err? <==> Coin(src, pos) && bound <= 0
    ensures r.0.Err? ==> r.0.error == ValueError && r.1 == pos + 1
    ensures r.0.Ok? ==> 0 <= r.0.value && (r.0.value == 0 || r.0.value < bound)
    ensures !Coin(src, pos) ==> r == (Ok(0), pos + 1)
    ensures r.0.Ok? && Coin(src, pos) ==> r.1 == pos + 2
  {
    if !Coin(src, pos) then (Ok(0), pos + 1)
    else if bound <= 0 then (Err(ValueError), pos + 1)
    else (Ok(Draw(src, pos + 1, 0, bound)), pos + 2)
  }

  /** An edge value an arbitrary cropping may hold. */
  predicate EdgeOk(x: int, bound: int) {
    0 <= x && (x == 0 || x < bound)
  }

  /** The first e edges of an arbitrary cropping, drawn from position pos. */
  function ArbitraryEdges(src: Stream, pos: nat, ch: int, cw: int, e: nat): (r: (Result<seq<int>>, nat))
    requires e <= 4
    ensures r.0.Ok? ==> |r.0.value| == e && pos + e <= r.1 <= pos + 2 * e
    ensures r.0.Ok? ==> forall x :: 0 <= x < e ==> EdgeOk(r.0.value[x], EdgeBound(x, ch, cw))
    ensures r.0.Err? ==> r.0.error == ValueError
  {
    if e == 0 then (Ok([]), pos)
    else
      var prev := ArbitraryEdges(src, pos, ch, cw, e - 1);
      if prev.0.Err? then prev
      else
        var v := ArbitraryEdge(src, prev.1, EdgeBound(e - 1, ch, cw));
        (if v.0.Err? then Err(v.0.error) else Ok(prev.0.value + [v.0.value]), v.1)
  }

  /** The cropping made of four edges. */
  function FromEdges(es: seq<int>): (c: Cropping)
    requires |es| == 4
    ensures Edges(c) == es
  {
    Cropping(es[0], es[1], es[2], es[3])
  }

  /** A cropping the "arbitrary" loop can produce. */
  predicate ArbitraryOk(c: Cropping, ch: int, cw: int) {
    EdgeOk(c.top, 5 * ch) && EdgeOk(c.bottom, 5 * ch) && EdgeOk(c.left, 5 * cw) && EdgeOk(c.right, 5 * cw)
  }

  /** The first n arbitrary croppings, drawn from position pos. */
  function ArbitraryCroppings(src: Stream, pos: nat, ch: int, cw: int, n: nat): (r: (Result<seq<Cropping>>, nat))
    ensures r.0.Ok? ==> |r.0.value| == n && pos + 4 * n <= r.1 <= pos + 8 * n
    ensures r.0.Ok? ==> forall k :: 0 <= k < n ==> ArbitraryOk(r.0.value[k], ch, cw)
    ensures r.0.Err? ==> r.0.error == ValueError
  {
    if n == 0 then (Ok([]), pos)
    else
      var prev := ArbitraryCroppings(src, pos, ch, cw, n - 1);
      if prev.0.Err? then prev
      else
        var es := ArbitraryEdges(src, prev.1, ch, cw, 4);
        if es.0.Err? then (Err(es.0.error), es.1)
        else
          assert forall x :: 0 <= x < 4 ==> EdgeOk(es.0.value[x], EdgeBound(x, ch, cw));
          (Ok(prev.0.value + [FromEdges(es.0.value)]), es.1)
  }

  /** The four croppings `gen_croppings` fixes before the arbitrary ones:
      all sides by 8, all sides by a tenth, one side by 8, one side by a
      tenth, the last two placed by coin draws at positions pos .. pos+3. */
  function CropFixed(src: Stream, pos: nat, h: nat, w: nat): (r: seq<Cropping>)
    ensures |r| == 4
  {
    var ch, cw := h / 10, w / 10;
    var ra1, rb1 := Draw(src, pos, 0, 2), Draw(src, pos + 1, 0, 2);
    var ra2, rb2 := Draw(src, pos + 2, 0, 2), Draw(src, pos + 3, 0, 2);
    [Cropping(8, 8, 8, 8), Cropping(ch, ch, cw, cw), OneSide(ra1, rb1, 8), OneSide(ra2, rb2, if ra2 == 0 then ch else cw)]
  }

  /** `gen_croppings` for an h x w image, drawing from position pos: the
      cropping table, or the ValueError of an empty draw range, and the
      stream position afterwards. */
  function CropTable(src: Stream, pos: nat, h: nat, w: nat): (r: (Result<seq<Cropping>>, nat))
    ensures r.0.Err? ==> r.0.error == ValueError
    ensures r.0.Ok? ==> pos + 20 <= r.1 <= pos + 36
  {
    var arb := ArbitraryCroppings(src, pos + 4, h / 10, w / 10, 4);
    (if arb.0.Err? then Err(arb.0.error) else Ok(CropFixed(src, pos, h, w) + arb.0.value), arb.1)
  }

  /** The table has NUM entries: two symmetric crops, then one edge set to 8,
      then one edge set to a tenth of its dimension, then four croppings
      whose edges are each 0 or below five tenths of their dimension. */
  lemma CropTableEntries(src: Stream, pos: nat, h: nat, w: nat)
    requires CropTable(src, pos, h, w).0.Ok?
    ensures var t := CropTable(src, pos, h, w).0.value;
      && |t| == Num(Crop) == 8
      && t[0] == Cropping(8, 8, 8, 8)
      && t[1] == Cropping(h / 10, h / 10, w / 10, w / 10)
      && (exists e :: 0 <= e < 4 && Edges(t[2])[e] == 8 && forall x :: 0 <= x < 4 && x != e ==> Edges(t[2])[x] == 0)
      && (exists e :: 0 <= e < 4 && Edges(t[3])[e] == (if e < 2 then h / 10 else w / 10) &&
            forall x :: 0 <= x < 4 && x != e ==> Edges(t[3])[x] == 0)
      && forall k :: 4 <= k < 8 ==> ArbitraryOk(t[k], h / 10, w / 10)
  {
    var t := CropTable(src, pos, h, w).0.value;
    var ra1, rb1 := Draw(src, pos, 0, 2), Draw(src, pos + 1, 0, 2);
    var ra2, rb2 := Draw(src, pos + 2, 0, 2), Draw(src, pos + 3, 0, 2);
    assert Edges(t[2])[2 * ra1 + rb1] == 8;
    assert Edges(t[3])[2 * ra2 + rb2] == (if 2 * ra2 + rb2 < 2 then h / 10 else w / 10);
    var (arb, p) := ArbitraryCroppings(src, pos + 4, h / 10, w / 10, 4);
    assert forall k :: 4 <= k < 8 ==> t[k] == arb.value[k - 4];
  }

  /** An arbitrary cropping of an image at least 10 pixels high removes at
      most h - 2 rows (and likewise for columns). */
  lemma ArbitraryCropFits(c: Cropping, h: nat, w: nat)
    requires ArbitraryOk(c, h / 10, w / 10)
    ensures h >= 10 ==> c.top + c.bottom <= h - 2
    ensures w >= 10 ==> c.left + c.right <= w - 2
  {
  }

  /** Each edge of an arbitrary cropping succeeds when both dimensions
      have a positive tenth. */
  lemma {:induction false} ArbitraryEdgesSucceed(src: Stream, pos: nat, ch: int, cw: int, e: nat)
    requires e <= 4 && ch >= 1 && cw >= 1
    ensures ArbitraryEdges(src, pos, ch, cw, e).0.Ok?
  {
    if e > 0 {
      ArbitraryEdgesSucceed(src, pos, ch, cw, e - 1);
    }
  }

  lemma {:induction false} ArbitraryCroppingsSucceed(src: Stream, pos: nat, ch: int, cw: int, n: nat)
    requires ch >= 1 && cw >= 1
    ensures ArbitraryCroppings(src, pos, ch, cw, n).0.Ok?
  {
    if n > 0 {
      ArbitraryCroppingsSucceed(src, pos, ch, cw, n - 1);
      var (prev, p) := ArbitraryCroppings(src, pos, ch, cw, n - 1);
      ArbitraryEdgesSucceed(src, p, ch, cw, 4);
    }
  }

  /** Images at least 10 x 10 always get a full table; a smaller one raises
      ValueError as soon as a coin asks for an edge below 5 * 0. */
  lemma CropTableSucceeds(src: Stream, pos: nat, h: nat, w: nat)
    requires h >= 10 && w >= 10
    ensures CropTable(src, pos, h, w).0.Ok?
  {
    ArbitraryCroppingsSucceed(src, pos + 4, h / 10, w / 10, 4);
  }

  /** An error in the edges stays an error with the same position. */
  lemma {:induction false} EdgesErrStays(src: Stream, pos: nat, ch: int, cw: int, e: nat, e2: nat)
    requires e <= e2 <= 4 && ArbitraryEdges(src, pos, ch, cw, e).0.Err?
    ensures ArbitraryEdges(src, pos, ch, cw, e2) == ArbitraryEdges(src, pos, ch, cw, e)
    decreases e2 - e
  {
    if e < e2 {
      EdgesErrStays(src, pos, ch, cw, e, e2 - 1);
    }
  }

  lemma {:induction false} CroppingsErrStays(src: Stream, pos: nat, ch: int, cw: int, n: nat, n2: nat)
    requires n <= n2 && ArbitraryCroppings(src, pos, ch, cw, n).0.Err?
    ensures ArbitraryCroppings(src, pos, ch, cw, n2) == ArbitraryCroppings(src, pos, ch, cw, n)
    decreases n2 - n
  {
    if n < n2 {
      CroppingsErrStays(src, pos, ch, cw, n, n2 - 1);
    }
  }

  /** The `cropping` matrix after the first |vals| edges were drawn. */
  function Fill(vals: seq<int>): (m: seq<seq<int>>)
    requires |vals| <= 4
    ensures |m| == 2 && |m[0]| == 2 && |m[1]| == 2
  {
    [[Entry(vals, 0), Entry(vals, 1)], [Entry(vals, 2), Entry(vals, 3)]]
  }

  /** Edge i of a partly drawn cropping: 0 until it is drawn. */
  function Entry(vals: seq<int>, i: nat): int {
    if i < |vals| then vals[i] else 0
  }

  /** One side of an arbitrary cropping in `gen_croppings`: a coin, then,
      when it shows 1, a draw below `bound`. */
  method DrawEdge(rng: Generator, bound: int) returns (r: Result<int>)
    modifies rng
    ensures r == ArbitraryEdge(rng.source, old(rng.cursor), bound).0
    ensures rng.cursor == ArbitraryEdge(rng.source, old(rng.cursor), bound).1
  {
    var coin := rng.Integers(0, 2);
    if coin.value == 0 {
      r := Ok(0);
    } else {
      var v := rng.Integers(0, bound);
      r := if v.None? then Err(ValueError) else Ok(v.value);
    }
  }

  /** Writing the next edge into the partly drawn matrix. */
  lemma FillNext(vals: seq<int>, a: nat, b: nat, x: int)
    requires a < 2 && b < 2 && |vals| == 2 * a + b
    ensures Fill(vals + [x]) == Fill(vals)[a := Fill(vals)[a][b := x]]
  {
    var m, m2 := Fill(vals), Fill(vals + [x]);
    var row := m[a][b := x];
    assert row == (if b == 0 then [x, m[a][1]] else [m[a][0], x]);
    assert row == m2[a];
    assert m[1 - a] == m2[1 - a];
    assert m[a := row] == (if a == 0 then [row, m[1]] else [m[0], row]);
  }

  /** One pass of the arbitrary-cropping loop of `gen_croppings`: the four
      sides, top and bottom bounded by 5 * ch, left and right by 5 * cw. */
  method DrawCropping(rng: Generator, ch: int, cw: int) returns (r: Result<Cropping>)
    modifies rng
    ensures var es := ArbitraryEdges(rng.source, old(rng.cursor), ch, cw, 4);
      && rng.cursor == es.1
      && (es.0.Err? ==> r == Err(es.0.error))
      && (es.0.Ok? ==> r == Ok(FromEdges(es.0.value)))
  {
    ghost var start := rng.cursor;
    ghost var vals: seq<int> := [];
    var cropping := [[0, 0], [0, 0]];
    var a := 0;
    while a < 2
      invariant a <= 2 && |vals| == 2 * a
      invariant cropping == Fill(vals)
      invariant ArbitraryEdges(rng.source, start, ch, cw, 2 * a).0 == Ok(vals)
      invariant ArbitraryEdges(rng.source, start, ch, cw, 2 * a).1 == rng.cursor
    {
      var b := 0;
      while b < 2
        invariant b <= 2 && |vals| == 2 * a + b
        invariant cropping == Fill(vals)
        invariant ArbitraryEdges(rng.source, start, ch, cw, 2 * a + b).0 == Ok(vals)
        invariant ArbitraryEdges(rng.source, start, ch, cw, 2 * a + b).1 == rng.cursor
      {
        var x := DrawEdge(rng, 5 * (if a == 0 then ch else cw));
        if x.Err? {
          r := Err(x.error);
          EdgesErrStays(rng.source, start, ch, cw, 2 * a + b + 1, 4);
          return;
        }
        FillNext(vals, a, b, x.value);
        cropping := cropping[a := cropping[a][b := x.value]];
        vals := vals + [x.value];
        b := b + 1;
      }
      a := a + 1;
    }
    r := Ok(AsCropping(cropping));
  }

  /** A failing pass of the arbitrary-cropping loop ends the table with its
      error. */
  lemma CroppingsFail(src: Stream, pos: nat, ch: int, cw: int, n: nat, e: Error)
    requires n < 4 && ArbitraryCroppings(src, pos, ch, cw, n).0.Ok?
    requires ArbitraryEdges(src, ArbitraryCroppings(src, pos, ch, cw, n).1, ch, cw, 4).0 == Err(e)
    ensures ArbitraryCroppings(src, pos, ch, cw, 4).0 == Err(e)
    ensures ArbitraryCroppings(src, pos, ch, cw, 4).1 == ArbitraryEdges(src, ArbitraryCroppings(src, pos, ch, cw, n).1, ch, cw, 4).1
  {
    CroppingsErrStays(src, pos, ch, cw, n + 1, 4);
  }

  /** The first four croppings of `gen_croppings`. */
  method FixedCroppings(rng: Generator, h: nat, w: nat) returns (croppings: seq<Cropping>)
    modifies rng
    ensures croppings == CropFixed(rng.source, old(rng.cursor), h, w)
    ensures rng.cursor == old(rng.cursor) + 4
  {
    ghost var pos := rng.cursor;
    var ch, cw := h / 10, w / 10;
    croppings := [Cropping(8, 8, 8, 8), Cropping(ch, ch, cw, cw)];

    var cropping := [[0, 0], [0, 0]];
    var ra := rng.Integers(0, 2);
    var rb := rng.Integers(0, 2);
    cropping := cropping[ra.value := cropping[ra.value][rb.value := 8]];
    croppings := croppings + [AsCropping(cropping)];

    cropping := [[0, 0], [0, 0]];
    ra := rng.Integers(0, 2);
    rb := rng.Integers(0, 2);
    cropping := cropping[ra.value := cropping[ra.value][rb.value := if ra.value == 0 then ch else cw]];
    croppings := croppings + [AsCropping(cropping)];
  }

  /** `self.gen_croppings(image_bgr)` on the edit's generator. */
  method GenCroppings(rng: Generator, h: nat, w: nat) returns (r: Result<seq<Cropping>>)
    modifies rng
    ensures r == CropTable(rng.source, old(rng.cursor), h, w).0
    ensures rng.cursor == CropTable(rng.source, old(rng.cursor), h, w).1
  {
    var croppings := FixedCroppings(rng, h, w);
    var arb := ArbitraryLoop(rng, h / 10, w / 10);
    r := if arb.Err? then Err(arb.error) else Ok(croppings + arb.value);
  }

  /** The loop of `gen_croppings` that appends four arbitrary croppings. */
  method ArbitraryLoop(rng: Generator, ch: int, cw: int) returns (r: Result<seq<Cropping>>)
    modifies rng
    ensures r == ArbitraryCroppings(rng.source, old(rng.cursor), ch, cw, 4).0
    ensures rng.cursor == ArbitraryCroppings(rng.source, old(rng.cursor), ch, cw, 4).1
  {
    ghost var pos := rng.cursor;
    var arb: seq<Cropping> := [];
    var n := 0;
    while n < 4
      invariant n <= 4
      invariant ArbitraryCroppings(rng.source, pos, ch, cw, n).0 == Ok(arb)
      invariant ArbitraryCroppings(rng.source, pos, ch, cw, n).1 == rng.cursor
    {
      var c := DrawCropping(rng, ch, cw);
      if c.Err? {
        r := Err(c.error);
        CroppingsFail(rng.source, pos, ch, cw, n, c.error);
        return;
      }
      arb := arb + [c.value];
      n := n + 1;
    }
    r := Ok(arb);
  }

  /** `image_bgr[top:h - bottom, left:w - right, :]`: the three subscripts
      raise IndexError on a 2-D (gray) array. */
  function CropImage(image: Img, c: Cropping): (r: Result<Img>)
    ensures r.Err? <==> image.gray
    ensures r.Err? ==> r.error == IndexError
    ensures r.Ok? ==> r.value.c == image.c && !r.value.gray
    ensures r.Ok? && 0 <= c.top && 0 <= c.bottom && c.top + c.bottom <= image.h &&
            0 <= c.left && 0 <= c.right && c.left + c.right <= image.w ==>
      r.value.h == image.h - c.top - c.bottom && r.value.w == image.w - c.left - c.right &&
      forall i, j :: 0 <= i < r.value.h && 0 <= j < r.value.w ==> r.value.px[i][j] == image.px[c.top + i][c.left + j]
  {
    if image.gray then Err(IndexError)
    else Ok(Slice(image, c.top, image.h - c.bottom, c.left, image.w - c.right))
  }

  /** The parameters of a crop variant. */
  function CropParams(c: Cropping): Params {
    map[Key("cropping") := CropV(c)]
  }

  /** The symmetric tenth crop of a 1000 x 800 image is 800 x 640. */
  lemma CropTenthExample(image: Img)
    requires image.h == 1000 && image.w == 800 && !image.gray
    ensures CropImage(image, Cropping(100, 100, 80, 80)).Ok?
    ensures CropImage(image, Cropping(100, 100, 80, 80)).value.h == 800
    ensures CropImage(image, Cropping(100, 100, 80, 80)).value.w == 640
    ensures Cropping(100, 100, 80, 80) == Cropping(image.h / 10, image.h / 10, image.w / 10, image.w / 10)
  {
  }

  /** IECrop.generate from position pos: the whole table is drawn first,
      then one variant per entry of `indices`, in list order. On a 2-D
      (gray) array the first requested index raises IndexError. */
  function CropRun(src: Stream, pos: nat, indices: seq<int>, image: Img): (r: (Gen, nat))
    ensures r.1 == CropTable(src, pos, image.h, image.w).1
    ensures CropTable(src, pos, image.h, image.w).0.Err? ==> r.0 == Gen([], Some(ValueError))
    ensures CropTable(src, pos, image.h, image.w).0.Ok? && image.gray ==>
      r.0 == Gen([], if indices == [] then None else Some(IndexError))
    ensures CropTable(src, pos, image.h, image.w).0.Ok? && !image.gray ==>
      var t := CropTable(src, pos, image.h, image.w).0.value;
      && (r.0.stop.None? <==> |r.0.variants| == |indices|)
      && |r.0.variants| <= |indices|
      && forall k :: 0 <= k < |r.0.variants| ==>
        && PyIndex(t, indices[k]).Some?
        && r.0.variants[k] == Variant(indices[k], CropParams(PyIndex(t, indices[k]).value),
                                      CropImage(image, PyIndex(t, indices[k]).value).value)
  {
    var (t, p) := CropTable(src, pos, image.h, image.w);
    if t.Err? then (Gen([], Some(t.error)), p)
    else if image.gray then (Gen([], if indices == [] then None else Some(IndexError)), p)
    else (Lookup(t.value, indices, (i, c) => Variant(i, CropParams(c), CropImage(image, c).value)), p)
  }

  /** The draws do not depend on the requested indices: two index lists
      leave the stream at the same position and yield the same cropping
      for the same index. */
  lemma CropIndexIndependent(src: Stream, pos: nat, i1: seq<int>, i2: seq<int>, image: Img, k1: nat, k2: nat)
    requires k1 < |CropRun(src, pos, i1, image).0.variants| && k2 < |CropRun(src, pos, i2, image).0.variants|
    requires i1[k1] == i2[k2]
    ensures CropRun(src, pos, i1, image).1 == CropRun(src, pos, i2, image).1
    ensures CropRun(src, pos, i1, image).0.variants[k1] == CropRun(src, pos, i2, image).0.variants[k2]
  {
  }

  /** IECrop.generate on the edit's generator. */
  method CropGenerate(rng: Generator, indices: seq<int>, image: Img) returns (g: Gen)
    modifies rng
    ensures (g, rng.cursor) == CropRun(rng.source, old(rng.cursor), indices, image)
  {
    var croppings := GenCroppings(rng, image.h, image.w);
    if croppings.Err? {
      g := Gen([], Some(croppings.error));
    } else if image.gray {
      g := Gen([], if indices == [] then None else Some(IndexError));
    } else {
      g := Lookup(croppings.value, indices, (i, c) => Variant(i, CropParams(c), CropImage(image, c).value));
    }
  }

  // ------------------------------------------------------------- IERescale

  /** IERescale.SCALES, (height factor, width factor). */
  const Scales: seq<(real, real)> := [(0.5, 0.5), (0.95, 0.95), (1.05, 1.05), (1.5, 1.5), (0.8, 1.2), (1.2, 0.8)]

  /** `int(s * n)` for a non-negative factor. */
  function Scaled(s: real, n: nat): (r: nat)
    requires 0.0 <= s
    ensures r as real <= s * n as real < r as real + 1.0
  {
    assert 0.0 <= s * n as real;
    (s * n as real).Floor
  }

  /** The target size of relative scale i, `(int(sh * h), int(sw * w))`,
      computed in integers (ScaledDimsFloor relates it to Scales). */
  function ScaledDims(i: nat, h: nat, w: nat): (r: (nat, nat))
    requires i < 6
    ensures 2 * r.0 <= 3 * h && 2 * r.1 <= 3 * w
  {
    match i
    case 0 => (h / 2, w / 2)
    case 1 => (95 * h / 100, 95 * w / 100)
    case 2 => (105 * h / 100, 105 * w / 100)
    case 3 => (3 * h / 2, 3 * w / 2)
    case 4 => (4 * h / 5, 6 * w / 5)
    case 5 => (6 * h / 5, 4 * w / 5)
  }

  /** The integer target size is the floor of the real factor times the
      dimension, for each scale of the table. */
  lemma ScaledDimsFloor(i: nat, h: nat, w: nat)
    requires i < 6
    ensures ScaledDims(i, h, w) == (Scaled(Scales[i].0, h), Scaled(Scales[i].1, w))
  {
    match i
    case 0 => ScaledUnique(0.5, h, h / 2); ScaledUnique(0.5, w, w / 2);
    case 1 => ScaledUnique(0.95, h, 95 * h / 100); ScaledUnique(0.95, w, 95 * w / 100);
    case 2 => ScaledUnique(1.05, h, 105 * h / 100); ScaledUnique(1.05, w, 105 * w / 100);
    case 3 => ScaledUnique(1.5, h, 3 * h / 2); ScaledUnique(1.5, w, 3 * w / 2);
    case 4 => ScaledUnique(0.8, h, 4 * h / 5); ScaledUnique(1.2, w, 6 * w / 5);
    case 5 => ScaledUnique(1.2, h, 6 * h / 5); ScaledUnique(0.8, w, 4 * w / 5);
  }

  /** `int(s * n)` is the only integer r with r <= s n < r + 1. */
  lemma ScaledUnique(s: real, n: nat, r: int)
    requires 0.0 <= s && r as real <= s * n as real < r as real + 1.0
    ensures Scaled(s, n) == r
  {
  }

  /** The area filter: at most max(h*w, 3840*2160), at least min(h*w, 256*256). */
  predicate AreaBounds(nh: nat, nw: nat, h: nat, w: nat) {
    && nh * nw <= (if h * w > 3840 * 2160 then h * w else 3840 * 2160)
    && nh * nw >= (if h * w < 256 * 256 then h * w else 256 * 256)
  }

  /** The fixed-area target, `int(h * sqrt(1024**2 / (h*w)))` by
      `int(w * ...)`, in exact arithmetic: h * sqrt(A / (h w)) is
      sqrt(A h / w), and the floor of a square root is the integer square root
      of the floor. */
  function FixedAreaDims(h: nat, w: nat): (r: (nat, nat))
    requires h > 0 && w > 0
  {
    (FloorSqrt(1024 * 1024 * h / w), FloorSqrt(1024 * 1024 * w / h))
  }

  /** The fixed-area target has area at most 1024^2. */
  lemma FixedAreaUpper(h: nat, w: nat)
    requires h > 0 && w > 0
    ensures FixedAreaDims(h, w).0 * FixedAreaDims(h, w).1 <= 1024 * 1024
  {
    var A: nat := 1024 * 1024;
    var x, y := A * h / w, A * w / h;
    var a, b := FloorSqrt(x), FloorSqrt(y);
    DivMulLe(a * a, A * h, w);
    DivMulLe(b * b, A * w, h);
    ProductUpper(a, b, A, h, w);
  }

  /** Adding one row and one column to the fixed-area target exceeds 1024^2. */
  lemma FixedAreaLower(h: nat, w: nat)
    requires h > 0 && w > 0
    ensures (FixedAreaDims(h, w).0 + 1) * (FixedAreaDims(h, w).1 + 1) > 1024 * 1024
  {
    var A: nat := 1024 * 1024;
    var x, y := A * h / w, A * w / h;
    var a, b := FloorSqrt(x), FloorSqrt(y);
    DivMulGt((a + 1) * (a + 1), A * h, w);
    DivMulGt((b + 1) * (b + 1), A * w, h);
    ProductLower(a + 1, b + 1, A, h, w);
  }

  /** a^2 w <= A h and b^2 h <= A w give a b <= A. */
  lemma ProductUpper(a: nat, b: nat, A: nat, h: nat, w: nat)
    requires h > 0 && w > 0
    requires a * a * w <= A * h && b * b * h <= A * w
    ensures a * b <= A
  {
    var p, q := a * a * w, b * b * h;
    MulMono(p, A * h, q);
    MulMono(q, A * w, A * h);
    assert p * q == ((a * b) * (a * b)) * (h * w);
    assert (A * h) * (A * w) == (A * A) * (h * w);
    MulMonoStrict(A * A, (a * b) * (a * b), h * w);
    SquareMono(A, a * b);
  }

  /** a^2 w > A h and b^2 h > A w give a b > A. */
  lemma ProductLower(a: nat, b: nat, A: nat, h: nat, w: nat)
    requires h > 0 && w > 0
    requires a * a * w > A * h && b * b * h > A * w
    ensures a * b > A
  {
    var p, q := a * a * w, b * b * h;
    MulMonoStrict(A * h, p, A * w);
    MulMonoStrict(A * w, q, p);
    assert p * q == ((a * b) * (a * b)) * (h * w);
    assert (A * h) * (A * w) == (A * A) * (h * w);
    MulMono((a * b) * (a * b), A * A, h * w);
    SquareMono(a * b, A);
  }

  /** A dimension of the fixed-area target is zero exactly when the aspect
      ratio exceeds 1024^2 (then OpenCV refuses the resize). */
  lemma FixedAreaNonEmpty(h: nat, w: nat)
    requires h > 0 && w > 0
    ensures FixedAreaDims(h, w).0 >= 1 <==> w <= 1024 * 1024 * h
    ensures FixedAreaDims(h, w).1 >= 1 <==> h <= 1024 * 1024 * w
  {
    var x, y := 1024 * 1024 * h / w, 1024 * 1024 * w / h;
    FloorSqrtPositive(x);
    FloorSqrtPositive(y);
    DivPositive(1024 * 1024 * h, w);
    DivPositive(1024 * 1024 * w, h);
  }

  lemma FloorSqrtPositive(x: nat)
    ensures FloorSqrt(x) >= 1 <==> x >= 1
  {
    var r := FloorSqrt(x);
    MulMono(1, r, r);
  }

  /** The parameters of a relative rescale. */
  function ScaleParams(s: (real, real)): Params {
    map[Key("scale") := PairV(s.0, s.1)]
  }

  /** A relative-rescale variant that passed the area filter and has its
      target size. */
  predicate RelativeVariant(image: Img, v: Variant) {
    && 0 <= v.index < 6
    && AreaBounds(ScaledDims(v.index, image.h, image.w).0, ScaledDims(v.index, image.h, image.w).1, image.h, image.w)
    && v.params == ScaleParams(Scales[v.index])
    && v.image.h == ScaledDims(v.index, image.h, image.w).0
    && v.image.w == ScaledDims(v.index, image.h, image.w).1
    && v.image.c == image.c
  }

  /** Relative rescale i: skipped when not in the area bounds, otherwise the
      resized image (OpenCV raises on an empty source). */
  function RelativeStep(cv: Cv, image: Img, i: nat): (r: Step)
    requires i < 6
    ensures Yields(r) ==> r.value.value.index == i
    ensures r.Some? ==> (Yields(r) <==> image.h * image.w > 0)
    ensures Raises(r) ==> r.value.error == CvError
  {
    var (nh, nw) := ScaledDims(i, image.h, image.w);
    if !AreaBounds(nh, nw, image.h, image.w) then None
    else match ResizeFrame(cv, image, nh, nw)
      case Err(e) => Some(Err(e))
      case Ok(im) => Some(Ok(Variant(i, ScaleParams(Scales[i]), im)))
  }

  /** A relative rescale is skipped exactly when it fails the area filter,
      and a computed one has its target size. */
  lemma RelativeStepKept(cv: Cv, image: Img, i: nat)
    requires i < 6
    ensures var r := RelativeStep(cv, image, i);
      && (r.None? <==> !AreaBounds(ScaledDims(i, image.h, image.w).0, ScaledDims(i, image.h, image.w).1, image.h, image.w))
      && (Yields(r) ==> RelativeVariant(image, r.value.value))
  {
  }

  /** A fixed rescale to the named target size. */
  function FixedVariant(cv: Cv, image: Img, i: int, nh: nat, nw: nat, tag: string): (r: Result<Variant>)
    ensures r.Ok? <==> nh * nw > 0 && image.h * image.w > 0
    ensures r.Ok? ==> r.value.index == i && r.value.image.h == nh && r.value.image.w == nw
    ensures r.Ok? ==> r.value.params == map[Key("scale") := StrV(tag)]
    ensures r.Err? ==> r.error == CvError
  {
    match ResizeFrame(cv, image, nh, nw)
    case Err(e) => Err(e)
    case Ok(im) => Ok(Variant(i, map[Key("scale") := StrV(tag)], im))
  }

  /** Index 6: 512 x 512. */
  function FixedSizeStep(cv: Cv, image: Img): (r: Step)
    ensures r.Some?
  {
    Some(FixedVariant(cv, image, 6, 512, 512, "fixed size"))
  }

  /** Index 7: the fixed area; `1024 ** 2 / (h * w)` raises on an empty image. */
  function FixedAreaStep(cv: Cv, image: Img): (r: Step)
    ensures r.Some?
    ensures image.h * image.w == 0 ==> r == Some(Err(ZeroDivisionError))
  {
    if image.h * image.w == 0 then Some(Err(ZeroDivisionError))
    else
      var (nh, nw) := FixedAreaDims(image.h, image.w);
      Some(FixedVariant(cv, image, 7, nh, nw, "fixed area"))
  }

  /** The loop body of IERescale.generate for each of its eight indices. */
  function RescaleSteps(cv: Cv, image: Img): (r: seq<Step>)
    ensures |r| == 8 && Indexed(r)
  {
    seq(8, i requires 0 <= i < 8 => RescaleStep(cv, image, i))
  }

  /** The loop body of IERescale.generate for index i. */
  function RescaleStep(cv: Cv, image: Img, i: nat): (r: Step)
    requires i < 8
    ensures Yields(r) ==> r.value.value.index == i
  {
    if i < 6 then RelativeStep(cv, image, i)
    else if i == 6 then FixedSizeStep(cv, image)
    else FixedAreaStep(cv, image)
  }

  /** IERescale.generate: no randomness; the relative rescales in order,
      then 512 x 512, then the fixed area. */
  function RescaleGenerate(cv: Cv, indices: seq<int>, image: Img): (g: Gen) {
    Collect(RescaleSteps(cv, image), indices, 0)
  }

  /** The variants come out in strictly ascending index order, each with a
      requested index in 0..7. */
  lemma RescaleOrder(cv: Cv, indices: seq<int>, image: Img)
    ensures var g := RescaleGenerate(cv, indices, image);
      && Ascending(g.variants)
      && (forall k :: 0 <= k < |g.variants| ==> 0 <= g.variants[k].index < 8 && g.variants[k].index in indices)
  {
    var steps := RescaleSteps(cv, image);
    var g := RescaleGenerate(cv, indices, image);
    CollectAscending(steps, indices, 0);
    forall k | 0 <= k < |g.variants|
      ensures 0 <= g.variants[k].index < 8 && g.variants[k].index in indices
    {
      CollectAt(steps, indices, 0, k);
    }
  }

  /** Every relative rescale passed the area filter and has its target size,
      index 6 is 512 x 512 and index 7 has the fixed-area size. */
  lemma RescaleShapes(cv: Cv, indices: seq<int>, image: Img, k: nat)
    requires k < |RescaleGenerate(cv, indices, image).variants|
    ensures var v := RescaleGenerate(cv, indices, image).variants[k];
      && (v.index < 6 ==> RelativeVariant(image, v))
      && (v.index == 6 ==> v.image.h == 512 && v.image.w == 512)
      && (v.index == 7 ==>
            && image.h * image.w > 0
            && v.image.h == FixedAreaDims(image.h, image.w).0
            && v.image.w == FixedAreaDims(image.h, image.w).1)
  {
    var steps := RescaleSteps(cv, image);
    CollectAt(steps, indices, 0, k);
    var v := RescaleGenerate(cv, indices, image).variants[k];
    if v.index < 6 {
      RelativeStepKept(cv, image, v.index);
    }
  }

  /** For a non-empty image only the fixed area can raise: every requested step
      before it yields or is skipped. */
  lemma RescaleOnlyAreaRaises(cv: Cv, image: Img, j: nat)
    requires image.h * image.w > 0 && j < 7
    ensures !Raises(RescaleSteps(cv, image)[j])
  {
  }

  /** The fixed-area step yields exactly when the aspect ratio is within
      1024^2 (otherwise a target dimension is zero). */
  lemma FixedAreaYields(cv: Cv, image: Img)
    requires image.h * image.w > 0
    ensures Yields(FixedAreaStep(cv, image)) <==>
      image.w <= 1024 * 1024 * image.h && image.h <= 1024 * 1024 * image.w
  {
    FixedAreaNonEmpty(image.h, image.w);
    var (nh, nw) := FixedAreaDims(image.h, image.w);
    MulMono(1, nh, nw);
  }

  /** For a non-empty image, step x of the generator yields exactly when
      its scale keeps the area bounds (x < 6), always for the fixed size,
      and for the fixed area when the ratio is within 1024^2. */
  lemma RescaleStepYields(cv: Cv, image: Img, x: nat)
    requires image.h * image.w > 0 && x < 8
    ensures Yields(RescaleSteps(cv, image)[x]) <==>
      && (x < 6 ==> AreaBounds(ScaledDims(x, image.h, image.w).0, ScaledDims(x, image.h, image.w).1, image.h, image.w))
      && (x == 7 ==> image.w <= 1024 * 1024 * image.h && image.h <= 1024 * 1024 * image.w)
  {
    if x < 6 {
      RelativeStepKept(cv, image, x);
    } else if x == 7 {
      FixedAreaYields(cv, image);
    }
  }

  /** For a non-empty image, index x is yielded exactly when it is requested
      and: a relative scale within the area bounds, the fixed size, or the
      fixed area with a ratio within 1024^2. */
  lemma RescaleYields(cv: Cv, indices: seq<int>, image: Img, x: int)
    requires image.h * image.w > 0
    ensures x in IndexList(RescaleGenerate(cv, indices, image)) <==>
      && 0 <= x < 8 && x in indices
      && (x < 6 ==> AreaBounds(ScaledDims(x, image.h, image.w).0, ScaledDims(x, image.h, image.w).1, image.h, image.w))
      && (x == 7 ==> image.w <= 1024 * 1024 * image.h && image.h <= 1024 * 1024 * image.w)
  {
    hide RescaleStep, AreaBounds, ScaledDims;
    var steps := RescaleSteps(cv, image);
    CollectMember(steps, indices, 0, x);
    forall j | 0 <= j < x && j < 7
      ensures !Raises(steps[j])
    {
      RescaleOnlyAreaRaises(cv, image, j);
    }
    if 0 <= x < 8 {
      RescaleStepYields(cv, image, x);
    }
  }

  /** For a non-empty image the generator raises only for a requested fixed
      area whose aspect ratio exceeds 1024^2, and then raises OpenCV's error. */
  lemma RescaleRaises(cv: Cv, indices: seq<int>, image: Img)
    requires image.h * image.w > 0
    ensures var g := RescaleGenerate(cv, indices, image);
      && (g.stop.None? <==> !(7 in indices && (image.w > 1024 * 1024 * image.h || image.h > 1024 * 1024 * image.w)))
      && (g.stop.Some? ==> g.stop == Some(CvError))
  {
    var steps := RescaleSteps(cv, image);
    CollectStop(steps, indices, 0);
    FixedAreaYields(cv, image);
    forall j | 0 <= j < 7
      ensures !Raises(steps[j])
    {
      RescaleOnlyAreaRaises(cv, image, j);
    }
  }

  /** On an empty image every step raises. */
  lemma EmptyStepRaises(cv: Cv, image: Img, j: nat)
    requires image.h * image.w == 0 && j < 8
    ensures Raises(RescaleSteps(cv, image)[j])
  {
    if j < 6 {
      assert ScaledDims(j, image.h, image.w).0 * ScaledDims(j, image.h, image.w).1 == 0;
    }
  }

  /** An empty image yields nothing, and raises as soon as any index is
      requested. */
  lemma RescaleEmptyImage(cv: Cv, indices: seq<int>, image: Img)
    requires image.h * image.w == 0
    ensures var g := RescaleGenerate(cv, indices, image);
      && g.variants == []
      && (g.stop.None? <==> forall j :: 0 <= j < 8 ==> j !in indices)
  {
    var steps := RescaleSteps(cv, image);
    var g := RescaleGenerate(cv, indices, image);
    CollectStop(steps, indices, 0);
    forall j | 0 <= j < 8
      ensures Raises(steps[j])
    {
      EmptyStepRaises(cv, image, j);
    }
    hide RescaleStep;
    if g.variants != [] {
      CollectAt(steps, indices, 0, 0);
    }
  }

  // ------------------------------------------------------------- IERotateA

  /** The parameters of a D4 variant. */
  function RotParams(rotations: int, flip: bool): Params {
    map[Key("rotations") := IntV(rotations), Key("flip") := BoolV(flip)]
  }

  /** The three D4 candidates for quarter-turn counts ra and rb. */
  function RotateACandidates(image: Img, ra: nat, rb: nat): (vs: seq<Variant>)
    ensures |vs| == 3 && forall k :: 0 <= k < 3 ==> vs[k].index == k
  {
    [ Variant(0, RotParams(ra, false), Rot90k(image, ra)),
      Variant(1, RotParams(0, true), FlipLr(image)),
      Variant(2, RotParams(rb, true), Rot90k(FlipLr(image), rb)) ]
  }

  /** IERotateA.generate once ra and rb are drawn: the requested candidates
      in the order 0, 1, 2. */
  function RotateAVariants(indices: seq<int>, image: Img, ra: nat, rb: nat): (g: Gen)
    ensures g.stop.None? && IndexList(g) == Requested(indices, 0, 3)
    ensures forall k :: 0 <= k < |g.variants| ==>
      0 <= g.variants[k].index < 3 && g.variants[k] == RotateACandidates(image, ra, rb)[g.variants[k].index]
  {
    var vs := RotateACandidates(image, ra, rb);
    SelectRequested(indices, vs, 0);
    SelectAt(indices, vs, 0);
    Gen(Select(indices, vs), None)
  }

  /** Variant 0 turns by ra, variant 2 mirrors and turns by rb: an odd turn
      count swaps height and width; the mirror keeps them. */
  lemma RotateAShapes(indices: seq<int>, image: Img, ra: nat, rb: nat)
    requires 1 <= ra < 4 && 1 <= rb < 4
    ensures var g := RotateAVariants(indices, image, ra, rb);
      forall k :: 0 <= k < |g.variants| ==>
        var v := g.variants[k];
        var turns := if v.index == 0 then ra else if v.index == 1 then 0 else rb;
        && (turns % 2 == 1 ==> v.image.h == image.w && v.image.w == image.h)
        && (turns % 2 == 0 ==> v.image.h == image.h && v.image.w == image.w)
        && v.params == RotParams(turns, v.index != 0)
  {
    Rot90kShape(image, ra);
    Rot90kShape(FlipLr(image), rb);
  }

  /** IERotateA.generate: two draws in [1, 4), made before any index is
      looked at. */
  method RotateAGenerate(rng: Generator, indices: seq<int>, image: Img) returns (g: Gen)
    modifies rng
    ensures rng.cursor == old(rng.cursor) + 2
    ensures g == RotateAVariants(indices, image, Draw(rng.source, old(rng.cursor), 1, 4), Draw(rng.source, old(rng.cursor) + 1, 1, 4))
  {
    var ra := rng.Integers(1, 4);
    var rb := rng.Integers(1, 4);
    g := RotateAVariants(indices, image, ra.value, rb.value);
  }

  // ------------------------------------------------------------- IERotateB

  /** IERotateB.ANGLES. */
  const Angles: seq<int> := [1, 3, 9, 27]

  /** `angle * (-1) ** integers(2)` for ANGLES[k], drawn at position pos + k. */
  function SignedAngle(src: Stream, pos: nat, k: nat): (r: int)
    requires k < 4
    ensures r == Angles[k] || r == -Angles[k]
  {
    Angles[k] * (if Draw(src, pos + k, 0, 2) == 1 then -1 else 1)
  }

  /** The five angles: the four signed ones in order, then one in [0, 360). */
  function RotateBAngles(src: Stream, pos: nat): (r: seq<int>)
    ensures |r| == Num(RotateB) == 5
    ensures forall k :: 0 <= k < 4 ==> r[k] == SignedAngle(src, pos, k)
    ensures r[4] == Draw(src, pos + 4, 0, 360) && 0 <= r[4] < 360
  {
    seq(4, (k: int) requires 0 <= k < 4 => SignedAngle(src, pos, k)) + [Draw(src, pos + 4, 0, 360)]
  }

  /** IERotateB.generate once the angles are drawn: variant `ind` rotates by
      angles[ind], in the order of `indices`. */
  function RotateBVariants(cv: Cv, angles: seq<int>, indices: seq<int>, image: Img): (g: Gen) {
    Lookup(angles, indices, (i, a) => Variant(i, map[Key("angle") := IntV(a)], RotateFrame(cv, image, a)))
  }

  /** Every rotation keeps the shape, and the list index picks the angle. */
  lemma RotateBShapes(cv: Cv, src: Stream, pos: nat, indices: seq<int>, image: Img)
    requires forall k :: 0 <= k < |indices| ==> 0 <= indices[k] < Num(RotateB)
    ensures var g := RotateBVariants(cv, RotateBAngles(src, pos), indices, image);
      && g.stop.None? && IndexList(g) == indices
      && forall k :: 0 <= k < |g.variants| ==>
        && g.variants[k].image.Shape() == image.Shape()
        && g.variants[k].params == map[Key("angle") := IntV(RotateBAngles(src, pos)[indices[k]])]
  {
    var g := RotateBVariants(cv, RotateBAngles(src, pos), indices, image);
    if g.stop.Some? {
      assert false;
    }
  }

  /** IERotateB.generate: five draws, the four signs and then the free angle,
      before any index is looked at. */
  method RotateBGenerate(cv: Cv, rng: Generator, indices: seq<int>, image: Img) returns (g: Gen)
    modifies rng
    ensures rng.cursor == old(rng.cursor) + 5
    ensures g == RotateBVariants(cv, RotateBAngles(rng.source, old(rng.cursor)), indices, image)
  {
    ghost var pos := rng.cursor;
    var angles: seq<int> := [];
    var k := 0;
    while k < |Angles|
      invariant k <= 4 && |angles| == k && rng.cursor == pos + k
      invariant forall x :: 0 <= x < k ==> angles[x] == SignedAngle(rng.source, pos, x)
    {
      var s := rng.Integers(0, 2);
      angles := angles + [Angles[k] * (if s.value == 1 then -1 else 1)];
      k := k + 1;
    }
    var free := rng.Integers(0, 360);
    angles := angles + [free.value];
    assert angles == RotateBAngles(rng.source, pos);
    g := RotateBVariants(cv, angles, indices, image);
  }
}
