/** The filter families of benchmark/image/edit_fil.py: global filters
    (grayscale, negative, brightness and saturation by gamma tables) and
    local filters (blur, sharpen, posterize). Neither family draws from its
    generator, so neither takes one. */
module EditFil {
  import opened Common
  import opened Frames
  import opened Edit

  // ---------------------------------------------------------------------
  // Gamma correction

  /** A lookup table for cv2.LUT: one uint8 value per uint8 input. */
  type Table = t: seq<U8> | |t| == 256 witness seq(256, _ => 0)

  /** Entry i of the gamma table: pow(i / 255, gamma) * 255, clipped into
      [0, 255] by `np.clip` and truncated by the store into a uint8 array. */
  function GammaEntry(pow: (real, real) -> real, i: nat, gamma: real): (r: U8)
    ensures var x := pow(i as real / 255.0, gamma) * 255.0;
      && (x <= 0.0 ==> r == 0)
      && (x >= 255.0 ==> r == 255)
      && (0.0 <= x <= 255.0 ==> r as real <= x < r as real + 1.0)
  {
    var x := pow(i as real / 255.0, gamma) * 255.0;
    var y := if x < 0.0 then 0.0 else if x > 255.0 then 255.0 else x;
    y.Floor
  }

  /** The table `gamma_correction` builds for a gamma. */
  function GammaLut(pow: (real, real) -> real, gamma: real): (t: Table)
    ensures forall i :: 0 <= i < 256 ==> t[i] == GammaEntry(pow, i, gamma)
  {
    seq(256, (i: int) requires 0 <= i < 256 => GammaEntry(pow, i, gamma))
  }

  /** The loop of `gamma_correction` that fills a fresh 256-entry uint8
      array, one entry per input value. */
  method GammaTable(pow: (real, real) -> real, gamma: real) returns (t: Table)
    ensures |t| == 256
    ensures forall i :: 0 <= i < 256 ==> t[i] == GammaEntry(pow, i, gamma)
  {
    var table := new U8[256];
    for i := 0 to 256
      invariant forall k :: 0 <= k < i ==> table[k] == GammaEntry(pow, k, gamma)
    {
      table[i] := GammaEntry(pow, i, gamma);
    }
    t := table[..];
  }

  /** `cv2.LUT(data, table)`: every channel value looked up in the table. */
  function ApplyLut(data: Img, t: Table): (r: Img)
    ensures r.h == data.h && r.w == data.w && r.c == data.c && r.gray == data.gray
    ensures forall i, j, k :: 0 <= i < data.h && 0 <= j < data.w && 0 <= k < data.c ==>
      r.px[i][j][k] == t[data.px[i][j][k]]
  {
    MapEntries(data, (v: U8) => t[v])
  }

  /** `gamma_correction(data, gamma)`: the table, then the lookup. */
  method GammaCorrection(pow: (real, real) -> real, data: Img, gamma: real) returns (r: Img)
    ensures r == ApplyLut(data, GammaLut(pow, gamma))
  {
    var t := GammaTable(pow, gamma);
    assert t == GammaLut(pow, gamma);
    r := ApplyLut(data, t);
  }

  // ---------------------------------------------------------------------
  // Colour conversions

  /** What cv2.cvtColor accepts for COLOR_BGR2GRAY and COLOR_BGR2HLS: a
      non-empty array with 3 or 4 channels. */
  predicate ColourInput(im: Img) {
    !im.gray && (im.c == 3 || im.c == 4) && im.h * im.w > 0
  }

  /** `cv2.cvtColor(image, COLOR_BGR2GRAY)`: a 2-D array of the same size. */
  function ToGray(cv: Cv, im: Img): (r: Result<Img>)
    ensures r.Ok? <==> ColourInput(im)
    ensures r.Err? ==> r.error == CvError
    ensures r.Ok? ==> r.value.h == im.h && r.value.w == im.w && r.value.c == 1 && r.value.gray
  {
    if !ColourInput(im) then Err(CvError)
    else Ok(Build(im.h, im.w, 1, true, (i, j, k) => cv.grayscale(im, i, j)))
  }

  /** `cv2.cvtColor(image, COLOR_BGR2HLS)`: three channels H, L, S. */
  function ToHls(cv: Cv, im: Img): (r: Result<Img>)
    ensures r.Ok? <==> ColourInput(im)
    ensures r.Err? ==> r.error == CvError
    ensures r.Ok? ==> r.value.h == im.h && r.value.w == im.w && r.value.c == 3 && !r.value.gray
  {
    if !ColourInput(im) then Err(CvError)
    else Ok(Build(im.h, im.w, 3, false, (i, j, k) => cv.toHls(im, i, j, k)))
  }

  /** `cv2.cvtColor(image, COLOR_HLS2BGR)` on a non-empty 3-channel array. */
  function FromHls(cv: Cv, hls: Img): (r: Img)
    requires hls.c == 3 && !hls.gray && hls.h * hls.w > 0
    ensures r.h == hls.h && r.w == hls.w && r.c == 3 && !r.gray
  {
    Build(hls.h, hls.w, 3, false, (i, j, k) => cv.fromHls(hls, i, j, k))
  }

  // ---------------------------------------------------------------------
  // IEFilterA

  /** `np.invert` on uint8: 255 - p in every channel. */
  function Negative(im: Img): (r: Img)
    ensures r.h == im.h && r.w == im.w && r.c == im.c && r.gray == im.gray
    ensures forall i, j, k :: 0 <= i < im.h && 0 <= j < im.w && 0 <= k < im.c ==>
      r.px[i][j][k] == 255 - im.px[i][j][k]
  {
    MapEntries(im, v => 255 - v)
  }

  /** Inverting twice gives the image back. */
  lemma NegativeInvolution(im: Img)
    ensures Negative(Negative(im)) == im
  {
    ImageExt(Negative(Negative(im)), im);
  }

  /** The brightness gammas: darkening ones for a bright image, where the
      mean channel value exceeds 127.5, and brightening ones otherwise. */
  function BrightnessFactors(im: Img): (f: seq<real>)
    ensures |f| == 2
  {
    if Bright(im) then [0.8, 1.5] else [0.5, 1.2]
  }

  /** The saturation gammas of variants 4 and 5. */
  const SaturationFactors: seq<real> := [0.5, 1.5]

  /** The channel map that looks channel `k` up in t and keeps the others. */
  function ChannelLut(t: Table, k: nat): (nat, U8) -> U8 {
    (l: nat, v: U8) => if l == k then t[v] else v
  }

  /** `hls[:, :, 2] = LUT(hls[:, :, 2], t)` on a copy: channel 2 (saturation)
      goes through the table, the other channels stay. */
  function Saturate(hls: Img, t: Table): (r: Img)
    ensures r.h == hls.h && r.w == hls.w && r.c == hls.c && r.gray == hls.gray
    ensures forall i, j, k :: 0 <= i < hls.h && 0 <= j < hls.w && 0 <= k < hls.c ==>
      r.px[i][j][k] == if k == 2 then t[hls.px[i][j][k]] else hls.px[i][j][k]
  {
    Rewrite(hls, 0, hls.h, 0, hls.w, ChannelLut(t, 2))
  }

  function FilterParams(name: string): Params {
    map[Key("filter") := StrV(name)]
  }

  function FactorParams(name: string, factor: real): Params {
    map[Key("filter") := StrV(name), Key("factor") := RealV(factor)]
  }

  /** Variant 4 or 5: gamma on the saturation channel of the HLS image. */
  function SaturationVariant(cv: Cv, image: Img, i: nat): (r: Result<Variant>)
    requires 4 <= i < 6
    ensures r.Err? <==> !ColourInput(image)
    ensures r.Err? ==> r.error == CvError
  {
    match ToHls(cv, image)
    case Err(e) => Err(e)
    case Ok(hls) =>
      var f := SaturationFactors[i - 4];
      Ok(Variant(i, FactorParams("saturation-gamma", f), FromHls(cv, Saturate(hls, GammaLut(cv.pow, f)))))
  }

  /** Variant i of IEFilterA, as the generator computes it when i is requested. */
  function FilterAStep(cv: Cv, image: Img, i: nat): (s: Step)
    requires i < 6
  {
    if i == 0 then
      match ToGray(cv, image)
      case Err(e) => Some(Err(e))
      case Ok(g) => Some(Ok(Variant(0, FilterParams("grayscale"), g)))
    else if i == 1 then Some(Ok(Variant(1, FilterParams("negative"), Negative(image))))
    else if i < 4 then
      var f := BrightnessFactors(image)[i - 2];
      Some(Ok(Variant(i, FactorParams("brightness-gamma", f), ApplyLut(image, GammaLut(cv.pow, f)))))
    else Some(SaturationVariant(cv, image, i))
  }

  function FilterASteps(cv: Cv, image: Img): (r: seq<Step>)
    ensures |r| == 6 && Indexed(r)
    ensures forall i :: 0 <= i < 6 ==> r[i] == FilterAStep(cv, image, i)
  {
    seq(6, (i: int) requires 0 <= i < 6 => FilterAStep(cv, image, i))
  }

  /** `IEFilterA.generate`: the blocks for 0, 1, {2, 3} and {4, 5} in turn. */
  function FilterARun(cv: Cv, indices: seq<int>, image: Img): Gen {
    Collect(FilterASteps(cv, image), indices, 0)
  }

  /** `IEFilterA.generate` as the code runs it: the grayscale, negative,
      brightness and saturation blocks in turn. */
  method FilterAGenerate(cv: Cv, indices: seq<int>, image: Img) returns (g: Gen)
    ensures g == FilterARun(cv, indices, image)
  {
    ghost var steps := FilterASteps(cv, image);
    var vs, stop := GrayscaleBlock(cv, indices, image, steps);
    if stop.Some? {
      return Gen(vs, stop);
    }
    vs := NegativeBlock(indices, image, steps, vs);
    vs := BrightnessBlock(cv, indices, image, steps, vs);
    g := SaturationBlock(cv, indices, image, steps, vs);
  }

  /** `if 0 in self.indices:` the grayscale conversion, which raises on
      anything but a colour image. */
  method GrayscaleBlock(cv: Cv, indices: seq<int>, image: Img, ghost steps: seq<Step>)
    returns (vs: seq<Variant>, stop: Option<Error>)
    requires steps == FilterASteps(cv, image)
    ensures stop.None? ==> Resumes(steps, indices, vs, 1)
    ensures stop.Some? ==> Collect(steps, indices, 0) == Gen(vs, stop)
  {
    vs, stop := [], None;
    ResumeStart(steps, indices);
    if 0 in indices {
      var gray := ToGray(cv, image);
      if gray.Err? {
        ResumeRaise(steps, indices, vs, 0);
        stop := Some(gray.error);
        return;
      }
      ResumeYield(steps, indices, vs, 0);
      vs := vs + [Variant(0, FilterParams("grayscale"), gray.value)];
    } else {
      ResumeSkip(steps, indices, vs, 0);
    }
  }

  /** `if 1 in self.indices:` the negative. */
  method NegativeBlock(indices: seq<int>, image: Img, ghost steps: seq<Step>, vs: seq<Variant>)
    returns (vs': seq<Variant>)
    requires |steps| == 6 && steps[1] == Some(Ok(Variant(1, FilterParams("negative"), Negative(image))))
    requires Resumes(steps, indices, vs, 1)
    ensures Resumes(steps, indices, vs', 2)
  {
    vs' := vs;
    if 1 in indices {
      ResumeYield(steps, indices, vs', 1);
      vs' := vs' + [Variant(1, FilterParams("negative"), Negative(image))];
    } else {
      ResumeSkip(steps, indices, vs', 1);
    }
  }

  /** `if 2 in self.indices or 3 in self.indices:` the brightness factors
      chosen from the mean, then a loop over variants 2 and 3. */
  method BrightnessBlock(cv: Cv, indices: seq<int>, image: Img, ghost steps: seq<Step>, vs: seq<Variant>)
    returns (vs': seq<Variant>)
    requires steps == FilterASteps(cv, image)
    requires Resumes(steps, indices, vs, 2)
    ensures Resumes(steps, indices, vs', 4)
  {
    vs' := vs;
    if 2 in indices || 3 in indices {
      hide FilterAStep;
      var factors := BrightnessFactors(image);
      for i := 2 to 4
        invariant Resumes(steps, indices, vs', i)
      {
        if i in indices {
          var factor := factors[i - 2];
          var fil := GammaCorrection(cv.pow, image, factor);
          BrightnessStep(cv, image, i);
          ResumeYield(steps, indices, vs', i);
          vs' := vs' + [Variant(i, FactorParams("brightness-gamma", factor), fil)];
        } else {
          ResumeSkip(steps, indices, vs', i);
        }
      }
    } else {
      ResumeSkip(steps, indices, vs', 2);
      ResumeSkip(steps, indices, vs', 3);
    }
  }

  /** Variants 2 and 3 are the gamma correction at their brightness factor. */
  lemma BrightnessStep(cv: Cv, image: Img, i: nat)
    requires 2 <= i < 4
    ensures FilterAStep(cv, image, i)
      == Some(Ok(Variant(i, FactorParams("brightness-gamma", BrightnessFactors(image)[i - 2]),
                         ApplyLut(image, GammaLut(cv.pow, BrightnessFactors(image)[i - 2])))))
  {
  }

  /** `if 4 in self.indices or 5 in self.indices:` one HLS conversion, which
      raises on anything but a colour image, then a loop over variants 4
      and 5. */
  method SaturationBlock(cv: Cv, indices: seq<int>, image: Img, ghost steps: seq<Step>, vs: seq<Variant>)
    returns (g: Gen)
    requires steps == FilterASteps(cv, image)
    requires Resumes(steps, indices, vs, 4)
    ensures g == Collect(steps, indices, 0)
  {
    var vs' := vs;
    if 4 in indices || 5 in indices {
      var hls := ToHls(cv, image);
      if hls.Err? {
        if 4 in indices {
          ResumeRaise(steps, indices, vs', 4);
        } else {
          ResumeSkip(steps, indices, vs', 4);
          ResumeRaise(steps, indices, vs', 5);
        }
        return Gen(vs', Some(hls.error));
      }
      for i := 4 to 6
        invariant Resumes(steps, indices, vs', i)
      {
        if i in indices {
          var factor := SaturationFactors[i - 4];
          var fil := SaturationGamma(cv, hls.value, factor);
          assert steps[i] == Some(Ok(Variant(i, FactorParams("saturation-gamma", factor), fil)));
          ResumeYield(steps, indices, vs', i);
          vs' := vs' + [Variant(i, FactorParams("saturation-gamma", factor), fil)];
        } else {
          ResumeSkip(steps, indices, vs', i);
        }
      }
    } else {
      ResumeSkip(steps, indices, vs', 4);
      ResumeSkip(steps, indices, vs', 5);
    }
    ResumeEnd(steps, indices, vs');
    g := Gen(vs', None);
  }

  /** The body of the saturation loop: copy the HLS array, rewrite its
      channel 2 in place through the gamma table, convert back to BGR. */
  method SaturationGamma(cv: Cv, hls: Img, factor: real) returns (r: Img)
    requires hls.c == 3 && !hls.gray && hls.h * hls.w > 0
    ensures r == FromHls(cv, Saturate(hls, GammaLut(cv.pow, factor)))
  {
    var a := ToArray(hls);
    var t := GammaTable(cv.pow, factor);
    assert t == GammaLut(cv.pow, factor);
    RewriteWindow(a, 0, a.Length0, 0, a.Length1, ChannelLut(t, 2));
    GridRewritten(a, hls, 0, hls.h, 0, hls.w, ChannelLut(t, 2));
    r := FromHls(cv, Grid(a, 3, false));
  }

  /** FilterA yields in ascending index order, whatever the order of
      `indices`, and only requested indices below NUM. */
  lemma FilterAOrder(cv: Cv, indices: seq<int>, image: Img)
    ensures var g := FilterARun(cv, indices, image);
      && Ascending(g.variants)
      && forall k :: 0 <= k < |g.variants| ==> 0 <= g.variants[k].index < 6 && g.variants[k].index in indices
  {
    var steps := FilterASteps(cv, image);
    CollectAscending(steps, indices, 0);
    forall k | 0 <= k < |FilterARun(cv, indices, image).variants|
      ensures 0 <= FilterARun(cv, indices, image).variants[k].index < 6
      ensures FilterARun(cv, indices, image).variants[k].index in indices
    {
      CollectAt(steps, indices, 0, k);
    }
  }

  /** On a colour image every requested variant is yielded and nothing is
      raised. */
  lemma FilterAColour(cv: Cv, indices: seq<int>, image: Img, x: int)
    requires ColourInput(image)
    ensures x in IndexList(FilterARun(cv, indices, image)) <==> 0 <= x < 6 && x in indices
    ensures FilterARun(cv, indices, image).stop.None?
  {
    var steps := FilterASteps(cv, image);
    CollectMember(steps, indices, 0, x);
    CollectStop(steps, indices, 0);
  }

  /** Only grayscale and saturation can raise, and they raise exactly on
      images that are not colour images. */
  lemma FilterAStepRaises(cv: Cv, image: Img, i: nat)
    requires i < 6
    ensures Raises(FilterAStep(cv, image, i)) <==> (i == 0 || i >= 4) && !ColourInput(image)
    ensures !Raises(FilterAStep(cv, image, i)) ==> Yields(FilterAStep(cv, image, i))
  {
  }

  /** On any other image (a 2-D array, the wrong channel count or no
      pixels) grayscale and saturation raise the OpenCV error: the run
      stops exactly when one of 0, 4, 5 is requested, and variants 1-3 are
      yielded only when requested and 0 is not. */
  lemma FilterANotColour(cv: Cv, indices: seq<int>, image: Img, x: int)
    requires !ColourInput(image)
    ensures var g := FilterARun(cv, indices, image);
      && (g.stop.Some? <==> 0 in indices || 4 in indices || 5 in indices)
      && (g.stop.Some? ==> g.stop.value == CvError)
      && (x in IndexList(g) <==> 1 <= x < 4 && x in indices && 0 !in indices)
  {
    var steps := FilterASteps(cv, image);
    CollectMember(steps, indices, 0, x);
    CollectStop(steps, indices, 0);
    forall j | 0 <= j < 6
      ensures Raises(steps[j]) <==> j == 0 || j >= 4
    {
      FilterAStepRaises(cv, image, j);
    }
  }

  /** The parameters and image of each yielded variant: the brightness
      factor for 2 and 3 follows the image's mean (0.8 and 1.5 when it
      exceeds 127.5, 0.5 and 1.2 otherwise), saturation uses 0.5 and 1.5. */
  lemma FilterAVariants(cv: Cv, indices: seq<int>, image: Img, k: nat)
    requires k < |FilterARun(cv, indices, image).variants|
    ensures var v := FilterARun(cv, indices, image).variants[k];
      && (v.index == 0 ==> ToGray(cv, image).Ok? && v == Variant(0, FilterParams("grayscale"), ToGray(cv, image).value))
      && (v.index == 1 ==> v == Variant(1, FilterParams("negative"), Negative(image)))
      && (v.index == 2 ==> v.params == FactorParams("brightness-gamma", if Bright(image) then 0.8 else 0.5))
      && (v.index == 3 ==> v.params == FactorParams("brightness-gamma", if Bright(image) then 1.5 else 1.2))
      && (2 <= v.index < 4 ==> v.image == ApplyLut(image, GammaLut(cv.pow, v.params[Key("factor")].r)))
      && (v.index == 4 ==> v.params == FactorParams("saturation-gamma", 0.5))
      && (v.index == 5 ==> v.params == FactorParams("saturation-gamma", 1.5))
      && (4 <= v.index < 6 ==> ToHls(cv, image).Ok?)
      && (4 <= v.index < 6 ==>
            v.image == FromHls(cv, Saturate(ToHls(cv, image).value, GammaLut(cv.pow, v.params[Key("factor")].r))))
  {
    var steps := FilterASteps(cv, image);
    CollectAt(steps, indices, 0, k);
  }

  // ---------------------------------------------------------------------
  // IEFilterB

  /** `cv2.GaussianBlur(image, (7, 7), 4)`. */
  function BlurFrame(cv: Cv, im: Img): (r: Img)
    ensures r.h == im.h && r.w == im.w && r.c == im.c && r.gray == im.gray
  {
    Build(im.h, im.w, im.c, im.gray, (i, j, k) => cv.blur(im, i, j, k))
  }

  /** `cv2.addWeighted(image, 1.5, blurred, -0.5, 0)`: an unsharp mask. */
  function SharpenFrame(cv: Cv, im: Img, blurred: Img): (r: Img)
    ensures r.h == im.h && r.w == im.w && r.c == im.c && r.gray == im.gray
    ensures forall i, j, k :: 0 <= i < im.h && 0 <= j < im.w && 0 <= k < im.c ==>
      r.px[i][j][k] == cv.sharpen(im, blurred, i, j, k)
  {
    Build(im.h, im.w, im.c, im.gray, (i, j, k) => cv.sharpen(im, blurred, i, j, k))
  }

  function Abs(x: int): nat {
    if x < 0 then -x else x
  }

  /** `np.round(p / 4)`: the nearest integer to p / 4, ties to the even one. */
  function RoundQuarter(p: nat): (q: nat)
    ensures Abs(4 * q as int - p as int) <= 2
    ensures Abs(4 * q as int - p as int) == 2 ==> q % 2 == 0
  {
    var f := p / 4;
    var rem := p % 4;
    if rem < 2 then f
    else if rem > 2 then f + 1
    else if f % 2 == 0 then f else f + 1
  }

  /** Posterize as written: `(np.round(p / 4) * 4).astype(np.uint8)`. The
      product reaches 256 for p = 254 and 255, which the cast wraps. */
  function PosterizeAsWritten(p: U8): (r: U8)
    ensures 4 * RoundQuarter(p) < 256 ==> r == 4 * RoundQuarter(p)
    ensures 4 * RoundQuarter(p) == 256 ==> r == 0
  {
    CastU8((4 * RoundQuarter(p)) as real)
  }

  /** The overflow: the two brightest values become black. */
  lemma PosterizeOverflow()
    ensures PosterizeAsWritten(254) == 0 && PosterizeAsWritten(255) == 0
  {
    assert RoundQuarter(254) == 64;
    assert RoundQuarter(255) == 64;
  }

  /** Posterize with the level kept inside uint8: 4 * round(p / 4), or 252,
      the largest multiple of 4 below 256, where that would be 256. */
  function Posterize(p: U8): (r: U8)
    ensures r % 4 == 0
    ensures p <= 253 ==> r == PosterizeAsWritten(p) && Abs(r as int - p as int) <= 2
  {
    var q := RoundQuarter(p);
    if q == 64 then 252 else 4 * q
  }

  /** No multiple of 4 inside uint8 is nearer to p than its posterized
      value; a tie goes to the even quotient. */
  lemma PosterizeNearest(p: U8, m: int)
    requires 0 <= m < 256 && m % 4 == 0
    ensures Abs(Posterize(p) as int - p as int) <= Abs(m - p)
    ensures Abs(Posterize(p) as int - p as int) == Abs(m - p) && m != Posterize(p) ==> (Posterize(p) / 4) % 2 == 0
  {
  }

  /** Posterize applied to every channel value. */
  function PosterizeImage(im: Img): (r: Img)
    ensures r.h == im.h && r.w == im.w && r.c == im.c && r.gray == im.gray
    ensures forall i, j, k :: 0 <= i < im.h && 0 <= j < im.w && 0 <= k < im.c ==>
      r.px[i][j][k] == Posterize(im.px[i][j][k])
  {
    MapEntries(im, Posterize)
  }

  /** The three variants of IEFilterB; the blur is computed once and the
      sharpen variant is built from that same blurred image. */
  function FilterBSteps(cv: Cv, image: Img): (r: seq<Step>)
    ensures |r| == 3 && Indexed(r)
    ensures forall i :: 0 <= i < 3 ==> Yields(r[i])
  {
    var blurred := BlurFrame(cv, image);
    [ Some(Ok(Variant(0, FilterParams("blur"), blurred))),
      Some(Ok(Variant(1, FilterParams("sharpen"), SharpenFrame(cv, image, blurred)))),
      Some(Ok(Variant(2, FilterParams("posterize"), PosterizeImage(image)))) ]
  }

  /** `IEFilterB.generate`. */
  function FilterBRun(cv: Cv, indices: seq<int>, image: Img): Gen {
    Collect(FilterBSteps(cv, image), indices, 0)
  }

  /** FilterB never raises and yields blur, sharpen, posterize in that
      order, each exactly when requested. */
  lemma FilterBOrder(cv: Cv, indices: seq<int>, image: Img, x: int)
    ensures var g := FilterBRun(cv, indices, image);
      && g.stop.None?
      && Ascending(g.variants)
      && (x in IndexList(g) <==> 0 <= x < 3 && x in indices)
  {
    var steps := FilterBSteps(cv, image);
    CollectAscending(steps, indices, 0);
    CollectMember(steps, indices, 0, x);
    CollectStop(steps, indices, 0);
  }

  /** The sharpen variant is built from the blurred image the blur variant
      carries. */
  lemma FilterBSharpenFromBlur(cv: Cv, indices: seq<int>, image: Img, a: nat, b: nat)
    requires var g := FilterBRun(cv, indices, image); a < |g.variants| && b < |g.variants|
    requires FilterBRun(cv, indices, image).variants[a].index == 0
    requires FilterBRun(cv, indices, image).variants[b].index == 1
    ensures var g := FilterBRun(cv, indices, image);
      g.variants[b].image == SharpenFrame(cv, image, g.variants[a].image)
  {
    var steps := FilterBSteps(cv, image);
    CollectAt(steps, indices, 0, a);
    CollectAt(steps, indices, 0, b);
  }

  /** The posterize variant maps every channel value to a multiple of 4
      within 2 of it, except 254 and 255, which go to 252. */
  lemma FilterBPosterize(cv: Cv, indices: seq<int>, image: Img, k: nat)
    requires k < |FilterBRun(cv, indices, image).variants|
    requires FilterBRun(cv, indices, image).variants[k].index == 2
    ensures var r := FilterBRun(cv, indices, image).variants[k].image;
      && r.h == image.h && r.w == image.w && r.c == image.c
      && forall i, j, l :: 0 <= i < image.h && 0 <= j < image.w && 0 <= l < image.c ==>
        r.px[i][j][l] % 4 == 0 &&
        (image.px[i][j][l] <= 253 ==> Abs(r.px[i][j][l] as int - image.px[i][j][l] as int) <= 2) &&
        (image.px[i][j][l] > 253 ==> r.px[i][j][l] == 252)
  {
    var steps := FilterBSteps(cv, image);
    CollectAt(steps, indices, 0, k);
  }
}
