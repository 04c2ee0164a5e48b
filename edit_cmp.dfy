/** IEComposeA of benchmark/image/edit_cmp.py: six fixed recipes, each a
    chain of edits from the other families built from one seed drawn for
    the recipe, taking the first variant of each stage and merging the
    stages' parameters into the recipe's dictionary. */
module EditCmp {
  import opened Common
  import opened Frames
  import opened Random
  import opened Edit
  import opened EditRst
  import opened EditFil
  import opened EditAlt

  /** The families a recipe stage can name. */
  datatype Sub = SubFilterA | SubAlterA | SubJpeg | SubRescale | SubCrop

  function SubFamily(s: Sub): Family {
    match s
    case SubFilterA => FilterA
    case SubAlterA => AlterA
    case SubJpeg => CompressJpeg
    case SubRescale => Rescale
    case SubCrop => Crop
  }

  /** One stage of a recipe: `Family(random_seed, indices)`. */
  datatype Stage = Stage(sub: Sub, indices: seq<int>)

  /** The stage's indices pass the family's construction check. */
  predicate StageValid(st: Stage) {
    forall j :: 0 <= j < |st.indices| ==> st.indices[j] < Num(SubFamily(st.sub))
  }

  /** `self.rng.integers(2**32)`. */
  const SeedRange: int := 0x1_0000_0000

  /** The `'composite'` label of recipe k. */
  function ComposeLabel(k: nat): string
    requires k < 6
  {
    if k < 2 then "fixed/post" else if k < 4 then "fixed/repost" else "fixed/screenshot"
  }

  /** The number of stages of recipe k. */
  function RecipeLength(k: nat): (n: nat)
    ensures 2 <= n <= 3
  {
    if k < 4 then 3 else 2
  }

  /** Stage j of recipe k: post (filter, mask, JPEG), repost (rescale,
      caption, JPEG) and screenshot (rescale, crop). */
  function RecipeStage(k: nat, j: nat): (st: Stage)
    requires k < 6 && j < RecipeLength(k)
    ensures StageValid(st)
  {
    match k
    case 0 => (if j == 0 then Stage(SubFilterA, [2]) else if j == 1 then Stage(SubAlterA, [0]) else Stage(SubJpeg, [1]))
    case 1 => (if j == 0 then Stage(SubFilterA, [5]) else if j == 1 then Stage(SubAlterA, [2]) else Stage(SubJpeg, [3]))
    case 2 => (if j == 0 then Stage(SubRescale, [1, 2]) else if j == 1 then Stage(SubAlterA, [7]) else Stage(SubJpeg, [3]))
    case 3 => (if j == 0 then Stage(SubRescale, [6]) else if j == 1 then Stage(SubAlterA, [8]) else Stage(SubJpeg, [6]))
    case 4 => (if j == 0 then Stage(SubRescale, [1, 2]) else Stage(SubCrop, [2]))
    case 5 => (if j == 0 then Stage(SubRescale, [7]) else Stage(SubCrop, [1]))
  }

  /** The whole generator of a stage's edit, constructed with `seed` and
      run on an image: the families that draw (AlterA, Crop) start a fresh
      stream from the seed. */
  function SubRun(cv: Cv, seeder: Seeder, seed: int, st: Stage): Img -> Gen {
    match st.sub
    case SubFilterA => (im: Img) => FilterARun(cv, st.indices, im)
    case SubAlterA => (im: Img) => AlterARun(cv, seeder(seed), 0, st.indices, im).0
    case SubJpeg => (im: Img) => CompressJpegGenerate(st.indices, im)
    case SubRescale => (im: Img) => RescaleGenerate(cv, st.indices, im)
    case SubCrop => (im: Img) => CropRun(seeder(seed), 0, st.indices, im).0
  }

  /** `next(m_gen)` inside a generator body: the first variant, or the
      exception raised before it; a generator that ends without yielding
      raises StopIteration, which Python turns into RuntimeError when it
      leaves a generator body (PEP 479). */
  function First(g: Gen): (r: Result<Variant>)
    ensures r.Ok? <==> |g.variants| > 0
    ensures r.Ok? ==> r.value == g.variants[0]
    ensures r.Err? && g.stop.None? ==> r.error == RuntimeError
    ensures r.Err? && g.stop.Some? && g.stop.value != StopIteration ==> r.error == g.stop.value
  {
    match Next(g)
    case Ok(v) => Ok(v)
    case Err(e) => Err(if e == StopIteration then RuntimeError else e)
  }

  /** Recipe k from stage j on: each stage edits the previous stage's
      image, and `params.update(m_params)` merges its parameters over those
      collected so far. */
  function Chain(cv: Cv, seeder: Seeder, seed: int, k: nat, j: nat, params: Params, image: Img): (r: Result<(Params, Img)>)
    requires k < 6 && j <= RecipeLength(k)
    decreases RecipeLength(k) - j
  {
    if j == RecipeLength(k) then Ok((params, image))
    else match First(SubRun(cv, seeder, seed, RecipeStage(k, j))(image))
      case Err(e) => Err(e)
      case Ok(v) => Chain(cv, seeder, seed, k, j + 1, params + v.params, v.image)
  }

  function StartParams(k: nat): Params
    requires k < 6
  {
    map[Key("composite") := StrV(ComposeLabel(k))]
  }

  /** Recipe k built from `seed`: its one pair, or the exception of a stage. */
  function ComposeStep(cv: Cv, seeder: Seeder, seed: int, k: nat, image: Img): (r: Step)
    requires k < 6
    ensures r.Some?
    ensures Yields(r) ==> r.value.value.index == k
  {
    match Chain(cv, seeder, seed, k, 0, StartParams(k), image)
    case Ok(pi) => Some(Ok(Variant(k, pi.0, pi.1)))
    case Err(e) => Some(Err(e))
  }

  /** Recipe k's seed: the k-th draw from the composite's own stream. */
  function ComposeSeed(src: Stream, pos: nat, k: nat): (r: int)
    ensures 0 <= r < SeedRange
  {
    Draw(src, pos + k, 0, SeedRange)
  }

  /** The six recipes, each built from its own seed. */
  function ComposeSteps(cv: Cv, seeder: Seeder, src: Stream, pos: nat, image: Img): (r: seq<Step>)
    ensures |r| == 6 && Indexed(r)
    ensures forall k :: 0 <= k < 6 ==> r[k] == ComposeStep(cv, seeder, ComposeSeed(src, pos, k), k, image)
  {
    seq(6, (k: int) requires 0 <= k < 6 => ComposeStep(cv, seeder, ComposeSeed(src, pos, k), k, image))
  }

  /** The stream position when generate stops: one draw per recipe entered,
      up to the first requested recipe that raises. */
  function ComposeCursor(pos: nat, steps: seq<Step>, indices: seq<int>, k: nat): nat
    requires k <= 6 == |steps|
    decreases 6 - k
  {
    if k == 6 then pos + 6
    else if k in indices && Raises(steps[k]) then pos + k + 1
    else ComposeCursor(pos, steps, indices, k + 1)
  }

  /** IEComposeA.generate run to the end from stream position pos, and the
      position afterwards. */
  function ComposeRun(cv: Cv, seeder: Seeder, src: Stream, pos: nat, indices: seq<int>, image: Img): (Gen, nat) {
    var steps := ComposeSteps(cv, seeder, src, pos, image);
    (Collect(steps, indices, 0), ComposeCursor(pos, steps, indices, 0))
  }

  // ---------------------------------------------------------------------
  // Properties

  /** Recipes come out in ascending order 0..5 whatever the order of
      `indices`, each requested; when no requested recipe raises, each
      requested recipe yields exactly one pair and six seeds are drawn. */
  lemma ComposeOrder(cv: Cv, seeder: Seeder, src: Stream, pos: nat, indices: seq<int>, image: Img, x: int)
    ensures var g := ComposeRun(cv, seeder, src, pos, indices, image).0;
      && Ascending(g.variants)
      && forall k :: 0 <= k < |g.variants| ==> 0 <= g.variants[k].index < 6 && g.variants[k].index in indices
    ensures var r := ComposeRun(cv, seeder, src, pos, indices, image);
      r.0.stop.None? ==>
        && (x in IndexList(r.0) <==> 0 <= x < 6 && x in indices)
        && r.1 == pos + 6
  {
    var steps := ComposeSteps(cv, seeder, src, pos, image);
    var g := Collect(steps, indices, 0);
    CollectAscending(steps, indices, 0);
    forall k | 0 <= k < |g.variants|
      ensures 0 <= g.variants[k].index < 6 && g.variants[k].index in indices
    {
      CollectAt(steps, indices, 0, k);
    }
    CollectStop(steps, indices, 0);
    CollectMember(steps, indices, 0, x);
    if g.stop.None? {
      ComposeCursorNoRaise(pos, steps, indices, 0);
    }
  }

  lemma {:induction false} ComposeCursorNoRaise(pos: nat, steps: seq<Step>, indices: seq<int>, k: nat)
    requires k <= 6 == |steps|
    requires forall j :: k <= j < 6 && j in indices ==> !Raises(steps[j])
    ensures ComposeCursor(pos, steps, indices, k) == pos + 6
    decreases 6 - k
  {
    if k < 6 {
      ComposeCursorNoRaise(pos, steps, indices, k + 1);
    }
  }

  /** Recipe k's seed is the k-th draw whatever the requested subset: a
      recipe two runs both yield is the same pair. */
  lemma ComposeIndexIndependent(cv: Cv, seeder: Seeder, src: Stream, pos: nat, i1: seq<int>, i2: seq<int>, image: Img, a: nat, b: nat)
    requires a < |ComposeRun(cv, seeder, src, pos, i1, image).0.variants|
    requires b < |ComposeRun(cv, seeder, src, pos, i2, image).0.variants|
    requires ComposeRun(cv, seeder, src, pos, i1, image).0.variants[a].index == ComposeRun(cv, seeder, src, pos, i2, image).0.variants[b].index
    ensures var v := ComposeRun(cv, seeder, src, pos, i1, image).0.variants[a];
      && v == ComposeRun(cv, seeder, src, pos, i2, image).0.variants[b]
      && 0 <= v.index < 6
      && Some(Ok(v)) == ComposeStep(cv, seeder, ComposeSeed(src, pos, v.index), v.index, image)
  {
    var steps := ComposeSteps(cv, seeder, src, pos, image);
    CollectAt(steps, i1, 0, a);
    CollectAt(steps, i2, 0, b);
  }

  /** The final JPEG quality of each recipe: the last stage's dictionary
      overwrites the key, so recipes 0-3 re-encode at JPEG_QUALITY_LEVELS
      [1], [3], [3] and [6] = 95, 80, 80 and 50; recipes 4 and 5 carry no
      'jpeg_quality' and re-encode as PNG. */
  lemma ComposeQuality(cv: Cv, seeder: Seeder, seed: int, k: nat, image: Img)
    requires k < 6 && Yields(ComposeStep(cv, seeder, seed, k, image))
    ensures ReencodeQuality(ComposeStep(cv, seeder, seed, k, image).value.value.params) ==
      Ok([95, 80, 80, 50, 0, 0][k])
  {
    hide FilterARun, AlterARun, CompressJpegGenerate, RescaleGenerate, CropRun;
    var p0 := StartParams(k);
    var c0 := First(SubRun(cv, seeder, seed, RecipeStage(k, 0))(image));
    assert Chain(cv, seeder, seed, k, 0, p0, image).Ok?;
    assert c0.Ok?;
    var p1 := p0 + c0.value.params;
    var c1 := First(SubRun(cv, seeder, seed, RecipeStage(k, 1))(c0.value.image));
    assert Chain(cv, seeder, seed, k, 1, p1, c0.value.image).Ok?;
    assert c1.Ok?;
    var p2 := p1 + c1.value.params;
    if k < 4 {
      var q := [1, 3, 3, 6][k];
      assert RecipeStage(k, 2) == Stage(SubJpeg, [q]);
      var c2 := First(SubRun(cv, seeder, seed, RecipeStage(k, 2))(c1.value.image));
      JpegStage(cv, seeder, seed, q, c1.value.image);
      assert Chain(cv, seeder, seed, k, 2, p2, c1.value.image) == Chain(cv, seeder, seed, k, 3, p2 + c2.value.params, c2.value.image);
      assert ComposeStep(cv, seeder, seed, k, image).value.value.params == p2 + c2.value.params;
    } else {
      assert RecipeStage(k, 0) == Stage(SubRescale, [[1, 2], [7]][k - 4]);
      assert RecipeStage(k, 1) == Stage(SubCrop, [[2, 1][k - 4]]);
      RescaleFirstKeys(cv, [[1, 2], [7]][k - 4], image);
      assert Key(JpegQuality) !in p1;
      CropFirstKeys(seeder(seed), [[2, 1][k - 4]], c0.value.image);
      assert Key(JpegQuality) !in c1.value.params;
      assert ComposeStep(cv, seeder, seed, k, image).value.value.params == p2;
    }
  }

  /** A JPEG stage with one valid index yields that quality and the image
      unchanged. */
  lemma JpegStage(cv: Cv, seeder: Seeder, seed: int, q: nat, image: Img)
    requires q < 11
    ensures First(SubRun(cv, seeder, seed, Stage(SubJpeg, [q]))(image)) == Ok(Variant(q, JpegParams(JpegQualityLevels[q]), image))
  {
    CompressJpegFollowsIndices([q], image);
  }

  /** Crop's parameters name only the cropping. */
  lemma CropFirstKeys(src: Stream, indices: seq<int>, image: Img)
    requires |CropRun(src, 0, indices, image).0.variants| > 0
    ensures CropRun(src, 0, indices, image).0.variants[0].params.Keys == {Key("cropping")}
  {
  }

  /** Rescale's parameters name only the scale. */
  lemma RescaleFirstKeys(cv: Cv, indices: seq<int>, image: Img)
    requires |RescaleGenerate(cv, indices, image).variants| > 0
    ensures RescaleGenerate(cv, indices, image).variants[0].params.Keys == {Key("scale")}
  {
    var steps := RescaleSteps(cv, image);
    CollectAt(steps, indices, 0, 0);
    var v := RescaleGenerate(cv, indices, image).variants[0];
    if v.index < 6 {
      RelativeStepKept(cv, image, v.index);
    }
  }

  /** Recipes 2 and 4 take the first of 0.95 and 1.05 that passes Rescale's
      area bounds; when neither does, the stage raises RuntimeError. */
  lemma ComposeRescaleFirst(cv: Cv, image: Img)
    requires image.h * image.w > 0
    ensures var r := First(RescaleGenerate(cv, [1, 2], image));
      var ok1 := AreaBounds(ScaledDims(1, image.h, image.w).0, ScaledDims(1, image.h, image.w).1, image.h, image.w);
      var ok2 := AreaBounds(ScaledDims(2, image.h, image.w).0, ScaledDims(2, image.h, image.w).1, image.h, image.w);
      && (ok1 ==> r.Ok? && r.value.index == 1 && r.value.params == ScaleParams(Scales[1]))
      && (!ok1 && ok2 ==> r.Ok? && r.value.index == 2 && r.value.params == ScaleParams(Scales[2]))
      && (!ok1 && !ok2 ==> r == Err(RuntimeError))
  {
    var g := RescaleGenerate(cv, [1, 2], image);
    RescaleOrder(cv, [1, 2], image);
    RescaleYields(cv, [1, 2], image, 1);
    RescaleYields(cv, [1, 2], image, 2);
    RescaleRaises(cv, [1, 2], image);
    if |g.variants| > 0 {
      RescaleShapes(cv, [1, 2], image, 0);
      if 1 in IndexList(g) {
        var k :| 0 <= k < |g.variants| && g.variants[k].index == 1;
        assert g.variants[0].index <= g.variants[k].index;
      }
    } else {
      assert 1 !in IndexList(g) && 2 !in IndexList(g);
    }
  }

  // ---------------------------------------------------------------------
  // The generator as the code runs it

  /** A stage's edit constructed and run: `Family(random_seed, indices)`
      and its `generate` on the current image. */
  method SubEdit(cv: Cv, seeder: Seeder, seed: int, st: Stage, image: Img) returns (g: Gen)
    requires StageValid(st)
    ensures g == SubRun(cv, seeder, seed, st)(image)
  {
    var e := MakeEdit(EditRequest(SubFamily(st.sub), seed, Some(st.indices)), seeder);
    var edit := e.value;
    match st.sub
    case SubFilterA =>
      g := FilterAGenerate(cv, edit.indices, image);
    case SubAlterA =>
      g := AlterAGenerate(cv, edit.rng, edit.indices, image);
    case SubJpeg =>
      g := CompressJpegGenerate(edit.indices, image);
    case SubRescale =>
      g := RescaleGenerate(cv, edit.indices, image);
    case SubCrop =>
      g := CropGenerate(edit.rng, edit.indices, image);
  }

  /** One recipe: `params = {'composite': label}`, then for each stage
      `m_params, mod_image_bgr = next(m_gen)` and `params.update(m_params)`. */
  method ComposeRecipe(cv: Cv, seeder: Seeder, seed: int, k: nat, image: Img) returns (r: Result<Variant>)
    requires k < 6
    ensures Some(r) == ComposeStep(cv, seeder, seed, k, image)
  {
    hide FilterARun, AlterARun, CompressJpegGenerate, RescaleGenerate, CropRun;
    var params := StartParams(k);
    var modified := image;
    for j := 0 to RecipeLength(k)
      invariant Chain(cv, seeder, seed, k, 0, StartParams(k), image) == Chain(cv, seeder, seed, k, j, params, modified)
    {
      var m := SubEdit(cv, seeder, seed, RecipeStage(k, j), modified);
      var first := First(m);
      if first.Err? {
        return Err(first.error);
      }
      params := params + first.value.params;
      modified := first.value.image;
    }
    r := Ok(Variant(k, params, modified));
  }

  /** One block of generate: `random_seed = self.rng.integers(2**32)`, then
      `if k in self.indices:` recipe k. */
  method ComposeBlock(cv: Cv, seeder: Seeder, rng: Generator, indices: seq<int>, image: Img, k: nat, vs: seq<Variant>,
                      ghost steps: seq<Step>, ghost pos0: nat)
    returns (vs': seq<Variant>, stop: Option<Error>)
    requires k < 6 && rng.cursor == pos0 + k
    requires steps == ComposeSteps(cv, seeder, rng.source, pos0, image)
    requires Resumes(steps, indices, vs, k)
    requires ComposeCursor(pos0, steps, indices, 0) == ComposeCursor(pos0, steps, indices, k)
    modifies rng
    ensures rng.cursor == pos0 + k + 1
    ensures stop.None? ==> Resumes(steps, indices, vs', k + 1)
    ensures stop.None? ==> ComposeCursor(pos0, steps, indices, 0) == ComposeCursor(pos0, steps, indices, k + 1)
    ensures stop.Some? ==> Collect(steps, indices, 0) == Gen(vs', stop) && ComposeCursor(pos0, steps, indices, 0) == rng.cursor
  {
    hide ComposeStep, Collect, Resumes;
    var seed := rng.Integers(0, SeedRange);
    vs', stop := vs, None;
    if k in indices {
      var r := ComposeRecipe(cv, seeder, seed.value, k, image);
      if r.Err? {
        ResumeRaise(steps, indices, vs, k);
        return vs, Some(r.error);
      }
      ResumeYield(steps, indices, vs, k);
      vs' := vs + [r.value];
    } else {
      ResumeSkip(steps, indices, vs, k);
    }
  }

  /** IEComposeA.generate: the six recipe blocks in order. */
  method ComposeAGenerate(cv: Cv, seeder: Seeder, rng: Generator, indices: seq<int>, image: Img) returns (g: Gen)
    modifies rng
    ensures (g, rng.cursor) == ComposeRun(cv, seeder, rng.source, old(rng.cursor), indices, image)
  {
    hide ComposeStep, Collect, Resumes;
    ghost var pos0 := rng.cursor;
    ghost var steps := ComposeSteps(cv, seeder, rng.source, pos0, image);
    ResumeStart(steps, indices);
    var vs: seq<Variant> := [];
    var stop: Option<Error>;
    // post: filters + alteration + compression
    vs, stop := ComposeBlock(cv, seeder, rng, indices, image, 0, vs, steps, pos0);
    if stop.Some? { return Gen(vs, stop); }
    vs, stop := ComposeBlock(cv, seeder, rng, indices, image, 1, vs, steps, pos0);
    if stop.Some? { return Gen(vs, stop); }
    // repost: resizing + alteration + compression
    vs, stop := ComposeBlock(cv, seeder, rng, indices, image, 2, vs, steps, pos0);
    if stop.Some? { return Gen(vs, stop); }
    vs, stop := ComposeBlock(cv, seeder, rng, indices, image, 3, vs, steps, pos0);
    if stop.Some? { return Gen(vs, stop); }
    // screenshot: resizing + cropping
    vs, stop := ComposeBlock(cv, seeder, rng, indices, image, 4, vs, steps, pos0);
    if stop.Some? { return Gen(vs, stop); }
    vs, stop := ComposeBlock(cv, seeder, rng, indices, image, 5, vs, steps, pos0);
    if stop.Some? { return Gen(vs, stop); }
    ResumeEnd(steps, indices, vs);
    g := Gen(vs, None);
  }
}
