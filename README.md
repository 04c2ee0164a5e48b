# watermark-benchmark: the evaluation engine, modelled in Dafny

This project models the evaluation engine of the watermark benchmark. It has four parts.

- **The edit catalog.** There are ten image edit families: `IEBase`, `IECompressJPEG`, `IECrop`,
  `IERescale`, `IERotateA`, `IERotateB`, `IEFilterA`, `IEFilterB`, `IEAlterA` and `IEComposeA`.
  Each is built from a random seed and an optional list of variant indices. `generate(image)`
  yields `(parameters, image)` pairs.
- **The suites.** `robustness.image_edits` and `durability.image_edits` list the edits of an
  evaluation mode.
- **The trial executor.** `evaluate_image` encodes an image with the watermark under test, runs
  every edit of the suite on the result, and decodes each variant. It writes one result record
  per trial.
- **The benchmark driver and the analysis.** `bench.benchmark` runs the executor over a dataset
  and tags the rows. `ImageAnalysis` summarises the rows into three tables:
  - one row per content item;
  - one row per edit type;
  - composite encode and decode scores per (watermark, dataset, evaluation).

## How the model is built

There is one module per source file.

| module | source |
|---|---|
| `Common` | helpers: Python slicing and indexing, `in` on strings, the integer square root |
| `Frames` | `benchmark/image/utils.py` and the numpy array operations the edits use |
| `Random` | numpy's `default_rng` |
| `Edit`, `EditRst`, `EditFil`, `EditAlt`, `EditCmp` | the five `benchmark/image/edit*.py` files |
| `Catalog` | the call `edit.generate(image)`, dispatched on the edit's class |
| `Robustness`, `Durability` | the two suite files |
| `Evaluate` | `benchmark/evaluate.py` |
| `Bench` | `bench.py` |
| `Analyze` | `analysis/analyze.py` |

How the source's entities are represented:

- **Images.** An image is a numpy `uint8` array: a `Frames.Image` with height, width, channels,
  a 2-D flag, and the pixel rows. Pixel arithmetic that the code writes out is modelled on
  integers or exact reals: the overlay masks, negative, posterize, gamma tables, the
  brightness test, crops, rotations by quarter turns, mirroring and `np.delete`. Where a float
  outside [0, 256) reaches `astype(np.uint8)`, the model assumes truncation then wrap-around
  modulo 256 (see "Left out").
- **OpenCV.** Calls whose arithmetic lives in OpenCV are parameters, collected in a `Cv` value.
  Their shapes and error cases are stated in the model:
  - `cvtColor`, `resize` and `warpAffine`;
  - `GaussianBlur`, `addWeighted` and `putText`;
  - `imencode`, which refuses an empty array, and `imdecode`, which gives None for bytes it
    cannot decode and three colour channels (`IMREAD_COLOR`) otherwise. `evaluate_image` lets
    both failures escape: an empty variant raises at re-encoding, outside the decoder's `try`,
    and an undecodable source or watermarked image raises AttributeError when its `.shape` is
    read.
- **Random generators.** A generator is a `Random.Generator` object. It holds the stream its
  seed starts and a cursor that each draw advances. `integers(lo, hi)` with `hi <= lo` raises
  `ValueError`, as numpy does. Each edit owns its generator, built from its seed.
- **Generators.** A Python generator run to exhaustion is a `Gen`: the variants it yielded, in
  order, and the exception it ended with, if any. Each variant also records the index of the
  variant it is. Edits whose `generate` draws or loops are methods on the edit's generator,
  proved equal to a function that states the whole run. The properties are then proved about
  that function:
  - the order in which variants come out;
  - which indices are yielded;
  - which inputs raise, and what they raise;
  - how far the stream advances;
  - that the draws do not depend on the requested subset.
- **Trials and analysis.** `evaluate_image`, `benchmark` and the `ImageAnalysis` constructor
  are methods proved equal to functions over rows. The DataFrames of the analysis are sequences
  of records.

Some facts about the code that the model follows:

- `evaluate_image` builds the suite's edits with the default seed 0
  (`robustness.image_edits(evaluation)` at benchmark/evaluate.py:111), whatever the content item.
- An index at or above `NUM` raises `AssertionError` (benchmark/image/edit.py:37-38). A
  negative index passes that check.
- The full suite asks for 61 variants, although its comment says 60.

Three bugs in the code are recorded under "Findings". Each has an as-written member that
exhibits it and a corrected member. The rest of the model (the catalog dispatch, the executor,
the driver and the score table) runs the corrected definitions; "Left out" names every member
whose contract is therefore about the corrected behaviour.

## Model

| member | source | states |
|---|---|---|
| `Random.Draw` | benchmark/image/edit_rst.py:100-101 | a bounded draw `integers(lo, hi)` lies in `[lo, hi)` |
| `Random.Draws` | benchmark/image/edit_alt.py:86 | `integers(hi, size=n)` gives n values, the i-th being the draw at position pos + i |
| `Random.Generator.constructor` | benchmark/image/edit.py:33 | a fresh generator starts at the beginning of its seed's stream |
| `Random.Generator.Integers` | benchmark/image/edit_rst.py:100-101 | an empty range returns no value and consumes nothing; otherwise the draw at the cursor, and the cursor advances by one |
| `Random.Generator.CoinFlip` | benchmark/image/edit_rst.py:46 | `if self.rng.integers(2):` reads one draw as a boolean |
| `Random.Generator.IntegersPair` | benchmark/image/edit_alt.py:79 | `integers([a, b])` raises when either bound is not positive, else it draws two values in order |
| `Random.Generator.IntegersN` | benchmark/image/edit_alt.py:86 | `integers(hi, size=n)` with n = 0 returns an empty array before any range check; otherwise it raises when hi <= 0, else it returns `Draws(...)` and advances n |
| `Common.PySlice` | benchmark/image/edit_rst.py:58 | Python's slice bounds normalised into `0 <= lo <= hi <= n` |
| `Common.FloorSqrt` | benchmark/image/edit_rst.py:88-89 | the integer square root: r*r <= x < (r+1)*(r+1) |
| `Common.FloorSqrtUnique` | benchmark/image/edit_rst.py:88-89 | that root is the only such r |
| `Frames.ResizeFrame` | benchmark/image/utils.py:46-52 | resize to (nh, nw); an empty source or target raises CvError |
| `Frames.RotateFrame` | benchmark/image/utils.py:55-61 | `warpAffine` about the centre keeps the shape |
| `Frames.BgrToBytes` | benchmark/image/utils.py:30-36 | an empty array raises CvError; otherwise quality 0 encodes PNG and any other quality encodes JPEG at that quality |
| `Frames.BytesToBgr` | benchmark/image/utils.py:39-43 | None exactly when OpenCV cannot decode the bytes; otherwise a three-channel colour image |
| `Frames.Slice` | benchmark/image/edit_rst.py:58 | numpy slicing on both axes, with Python's bound rules |
| `Frames.Rot90kShape` | benchmark/image/edit_rst.py:104 | an odd number of quarter turns swaps height and width; an even number keeps them |
| `Frames.FlipLrInvolution` | benchmark/image/edit_rst.py:108 | mirroring twice gives the image back |
| `Frames.Rot90kPeriodic` | benchmark/image/edit_rst.py:104 | `np.rot90(im, k)` equals `np.rot90(im, k + 4)` |
| `Frames.Rot90FourTimes` | benchmark/image/edit_rst.py:104 | four quarter turns give the image back |
| `Frames.DeleteRows` | benchmark/image/edit_alt.py:42 | `np.delete(.., slice(a, b), 0)` keeps the rows outside the slice, in order |
| `Frames.DeleteCols` | benchmark/image/edit_alt.py:43 | the same on columns |
| `Frames.ToArray` | benchmark/image/edit_alt.py:74 | `image.copy()` is a fresh array holding the image |
| `Frames.RewriteWindow` | benchmark/image/edit_alt.py:23-25 | an in-place window assignment rewrites exactly the window's entries and leaves the rest unchanged |
| `Frames.GridRewritten` | benchmark/image/edit_alt.py:25 | the rewritten array holds the functional rewrite of the old image |
| `Edit.ResolveIndices` | benchmark/image/edit.py:35-39 | missing indices default to `range(NUM)`; an index >= NUM raises AssertionError; otherwise the given list is kept as is |
| `Edit.NegativeIndexAccepted` | benchmark/image/edit.py:37 | the construction check bounds indices from above only, so a negative index passes |
| `Edit.ImageEdit.constructor` | benchmark/image/edit.py:28-39 | the edit keeps its family and indices, and owns a fresh generator seeded from `random_seed` |
| `Edit.MakeEdit` | benchmark/image/edit.py:28-39 | `Family(random_seed, indices)` succeeds exactly when the indices resolve, and otherwise raises AssertionError |
| `Edit.CollectAscending` | benchmark/image/edit.py:55-59 | an `if i in self.indices:` chain yields in ascending variant order |
| `Edit.CollectMember` | benchmark/image/edit.py:55-59 | index x is yielded exactly when it is requested, its block yields, and no earlier requested block raised |
| `Edit.CollectStop` | benchmark/image/edit.py:55-59 | the chain ends with the exception of the first requested block that raises, or with none |
| `Edit.RequestedMember` | benchmark/image/edit.py:56-58 | x is among the yielded indices of `[lo, hi)` exactly when lo <= x < hi and x was requested |
| `Edit.ReencodeQuality` | benchmark/evaluate.py:130-133 | re-encoding uses the `'jpeg_quality'` string key's value, or PNG (0) when that key is absent |
| `Edit.BaseGenerateAsWritten` | benchmark/image/edit.py:55-59 | IEBase as written: the requested of indices 0 and 1, in order, on the unchanged image; index 1 keys its quality with the enum member |
| `Edit.BaseJpegVariantReencodedAsPng` | benchmark/image/edit.py:59 | as written, the JPEG variant of IEBase is re-encoded as PNG by the executor |
| `Edit.BaseGenerate` | benchmark/image/edit.py:55-59 | corrected IEBase: variant 0 has empty parameters, and variant 1 asks for quality 95 under the string key |
| `Edit.JpegQualityTable` | benchmark/image/edit.py:66-67 | the quality table has NUM = 11 entries, strictly decreasing from 99 to 10 |
| `Edit.JpegParams` | benchmark/image/edit.py:72 | a JPEG variant's parameters re-encode at its quality |
| `Edit.CompressJpegGenerate` | benchmark/image/edit.py:69-72 | one variant per list entry, in list order (duplicates and any order included), each at the table's quality; an out-of-range entry raises IndexError after the earlier variants |
| `Edit.CompressJpegFollowsIndices` | benchmark/image/edit.py:69-72 | valid indices all yield, in the given order, at the table's quality |
| `EditRst.OneSide` | benchmark/image/edit_rst.py:31-39 | setting `cropping[ra][rb]` changes exactly that edge |
| `EditRst.ArbitraryEdge` | benchmark/image/edit_rst.py:46-47 | a coin decides whether the edge is drawn; a drawn edge with an empty range raises ValueError; the stream advances by one or two |
| `EditRst.ArbitraryCroppings` | benchmark/image/edit_rst.py:42-48 | n arbitrary croppings, each edge 0 or below 5*ch (rows) or 5*cw (columns), consuming between 4n and 8n draws |
| `EditRst.CropTable` | benchmark/image/edit_rst.py:20-50 | `gen_croppings` gives the table or ValueError, after 20 to 36 draws |
| `EditRst.CropTableEntries` | benchmark/image/edit_rst.py:25-48 | entries 0 and 1 are the 8-pixel and tenth all-side crops; entries 2 and 3 set one edge; entries 4-7 are arbitrary |
| `EditRst.CropTableSucceeds` | benchmark/image/edit_rst.py:42-48 | an image at least 10 x 10 always gets a full table without raising |
| `EditRst.ArbitraryCropFits` | benchmark/image/edit_rst.py:47 | on an image of 10 rows or more, an arbitrary crop's top and bottom together leave at least 2 rows; the same holds for columns |
| `EditRst.DrawEdge` | benchmark/image/edit_rst.py:46-47 | one edge drawn on the edit's generator, as `ArbitraryEdge` states |
| `EditRst.DrawCropping` | benchmark/image/edit_rst.py:43-48 | the four nested-loop edges, written into the 2 x 2 list in loop order |
| `EditRst.ArbitraryLoop` | benchmark/image/edit_rst.py:42-48 | the four arbitrary croppings drawn in turn; the first raising draw ends the loop |
| `EditRst.FixedCroppings` | benchmark/image/edit_rst.py:28-39 | the four fixed croppings take four draws |
| `EditRst.GenCroppings` | benchmark/image/edit_rst.py:20-50 | `gen_croppings` on the edit's generator equals `CropTable`, cursor included |
| `EditRst.CropImage` | benchmark/image/edit_rst.py:58 | the 3-index subscript raises IndexError exactly on a 2-D array; otherwise the crop keeps the channels, and with edges that fit it is h - top - bottom by w - left - right, holding the source pixels shifted by (top, left) |
| `EditRst.CropTenthExample` | benchmark/image/edit_rst.py:25-28 | the tenth crop of a 1000 x 800 image is 800 x 640 |
| `EditRst.CropRun` | benchmark/image/edit_rst.py:52-59 | the whole table is drawn before anything is yielded; a table error raises at once; on a 2-D array the first requested index raises IndexError; otherwise variants come in list order |
| `EditRst.CropIndexIndependent` | benchmark/image/edit_rst.py:52-59 | the draws and each variant do not depend on the requested subset |
| `EditRst.CropGenerate` | benchmark/image/edit_rst.py:52-59 | IECrop.generate on the edit's generator equals `CropRun` |
| `EditRst.Scaled` | benchmark/image/edit_rst.py:76 | `int(s * n)` is the floor of s*n |
| `EditRst.ScaledDimsFloor` | benchmark/image/edit_rst.py:76 | the integer targets of each SCALES entry equal `int(s * h), int(s * w)` |
| `EditRst.FixedAreaUpper` | benchmark/image/edit_rst.py:88-89 | the fixed-area target has area at most 1024^2 |
| `EditRst.FixedAreaLower` | benchmark/image/edit_rst.py:88-89 | one more row and column would exceed 1024^2 |
| `EditRst.FixedAreaNonEmpty` | benchmark/image/edit_rst.py:88-89 | a target dimension is zero exactly when the aspect ratio exceeds 1024^2 |
| `EditRst.RelativeStepKept` | benchmark/image/edit_rst.py:73-81 | a relative rescale is skipped exactly when it fails the area filter; otherwise it is resized to its target |
| `EditRst.FixedVariant` | benchmark/image/edit_rst.py:84-90 | a fixed rescale yields the target size with its `'scale'` tag, or raises CvError on an empty size |
| `EditRst.FixedAreaStep` | benchmark/image/edit_rst.py:87-90 | `1024 ** 2 / (h * w)` raises ZeroDivisionError on an empty image |
| `EditRst.RescaleOrder` | benchmark/image/edit_rst.py:69-90 | IERescale yields in ascending index order, only requested indices in 0..7 |
| `EditRst.RescaleShapes` | benchmark/image/edit_rst.py:73-90 | each relative variant passed the area filter and has its target size; index 6 is 512 x 512; index 7 has the fixed-area size |
| `EditRst.RescaleYields` | benchmark/image/edit_rst.py:73-90 | on a non-empty image, x is yielded exactly when it is requested and in 0..7, a relative scale (0-5) is within the area bounds, and the fixed area (7) has an aspect ratio within 1024^2 |
| `EditRst.RescaleRaises` | benchmark/image/edit_rst.py:87-90 | on a non-empty image only a requested fixed-area rescale can raise |
| `EditRst.RescaleEmptyImage` | benchmark/image/edit_rst.py:69-90 | an empty image yields nothing, and raises once any index is requested |
| `EditRst.RotateAVariants` | benchmark/image/edit_rst.py:103-113 | the requested of the three D4 variants, in order, with their rotation counts and flips |
| `EditRst.RotateAShapes` | benchmark/image/edit_rst.py:103-113 | an odd turn swaps height and width; the mirror keeps the shape |
| `EditRst.RotateAGenerate` | benchmark/image/edit_rst.py:99-113 | two draws in [1, 4), made before any index is looked at |
| `EditRst.RotateBAngles` | benchmark/image/edit_rst.py:124-125 | four signed ANGLES in order, then one angle in [0, 360) |
| `EditRst.RotateBShapes` | benchmark/image/edit_rst.py:127-128 | every rotation keeps the shape, and the list index picks the angle |
| `EditRst.RotateBGenerate` | benchmark/image/edit_rst.py:123-128 | five draws, whatever the requested subset |
| `EditFil.GammaEntry` | benchmark/image/edit_fil.py:25 | `clip(pow(i/255, gamma) * 255, 0, 255)` truncated to uint8 |
| `EditFil.GammaTable` | benchmark/image/edit_fil.py:23-25 | the loop fills all 256 entries of the table |
| `EditFil.ApplyLut` | benchmark/image/edit_fil.py:26 | `cv2.LUT` looks every channel value up and keeps the shape |
| `EditFil.GammaCorrection` | benchmark/image/edit_fil.py:22-26 | `gamma_correction` is the table lookup |
| `EditFil.ToGray` | benchmark/image/edit_fil.py:31 | BGR2GRAY needs a non-empty 3-channel array, else it raises CvError; the result is a 2-D array of the same size |
| `EditFil.Negative` | benchmark/image/edit_fil.py:36 | `np.invert` maps every value p to 255 - p |
| `EditFil.NegativeInvolution` | benchmark/image/edit_fil.py:36 | inverting twice gives the image back |
| `EditFil.SaturationVariant` | benchmark/image/edit_fil.py:51-61 | the saturation variant raises exactly when the input is not a colour image |
| `EditFil.SaturationGamma` | benchmark/image/edit_fil.py:58-60 | gamma on channel 2 of a copy of the HLS image, then back to BGR |
| `EditFil.FilterAGenerate` | benchmark/image/edit_fil.py:28-61 | the four blocks of IEFilterA in turn, with one HLS conversion for 4 and 5 |
| `EditFil.FilterAOrder` | benchmark/image/edit_fil.py:28-61 | IEFilterA yields in ascending order, only requested indices in 0..5 |
| `EditFil.FilterAColour` | benchmark/image/edit_fil.py:28-61 | on a colour image, x is yielded exactly when it is requested and in range, and nothing raises |
| `EditFil.FilterAStepRaises` | benchmark/image/edit_fil.py:30-61 | only grayscale (0) and saturation (4, 5) can raise, and they raise exactly on a non-colour image |
| `EditFil.FilterANotColour` | benchmark/image/edit_fil.py:30-61 | on any other image, a requested 0, 4 or 5 ends the generator with CvError |
| `EditFil.FilterAVariants` | benchmark/image/edit_fil.py:39-48 | the brightness factors are 0.8 and 1.5 for a bright image, else 0.5 and 1.2; each variant carries its filter name and factor |
| `EditFil.PosterizeAsWritten` | benchmark/image/edit_fil.py:83 | the posterize level `4 * round(p / 4)` with 256 wrapping to 0 in the uint8 cast |
| `EditFil.PosterizeOverflow` | benchmark/image/edit_fil.py:83 | as written, 254 and 255 become 0 |
| `EditFil.Posterize` | benchmark/image/edit_fil.py:83 | corrected: a multiple of 4, within 2 of p, equal to the code's value for p <= 253 |
| `EditFil.PosterizeNearest` | benchmark/image/edit_fil.py:83 | no multiple of 4 inside uint8 is nearer to p; ties go to the even quarter |
| `EditFil.FilterBOrder` | benchmark/image/edit_fil.py:70-84 | IEFilterB never raises and yields blur, sharpen and posterize in order, exactly when requested |
| `EditFil.FilterBSharpenFromBlur` | benchmark/image/edit_fil.py:72-79 | sharpen is built from the same blurred image that the blur variant yields |
| `EditFil.FilterBPosterize` | benchmark/image/edit_fil.py:82-84 | the posterize variant maps every channel value to a multiple of 4 within 2 of it |
| `EditAlt.OverlayValueRange` | benchmark/image/edit_alt.py:23-25 | an overlaid value lies in [32, 95] in the darkening branch and in [161, 224] in the brightening branch |
| `EditAlt.OverlayBox` | benchmark/image/edit_alt.py:22-27 | pixels outside the box are kept; inside it each value is shifted by the box's own brightness |
| `EditAlt.OverlayBoxInPlace` | benchmark/image/edit_alt.py:22-27 | the in-place rewrite of the array leaves it holding `OverlayBox` of the old image |
| `EditAlt.OverlayLinesPixels` | benchmark/image/edit_alt.py:30-38 | pixels outside both bands are kept; a pixel in a band is shifted, and one in both bands is shifted twice |
| `EditAlt.OverlayLinesInPlace` | benchmark/image/edit_alt.py:30-38 | two in-place band rewrites in turn equal `OverlayLines` |
| `EditAlt.RemoveLinesShape` | benchmark/image/edit_alt.py:41-45 | with both bands inside the image, the result is (h - band rows) by (w - band columns) |
| `EditAlt.SquareCount` | benchmark/image/edit_alt.py:85 | `int(sqrt(h * w / 1024))` is the floor of the square root |
| `EditAlt.OverlayAllOutside` | benchmark/image/edit_alt.py:88-90 | a pixel that no square covers is kept |
| `EditAlt.ManySquares` | benchmark/image/edit_alt.py:88-90 | the loop over n squares applies the overlays in turn on one copy |
| `EditAlt.StageDrawFails` | benchmark/image/edit_alt.py:71-114 | a block's draws raise ValueError exactly when one of its ranges is empty; otherwise they consume the block's fixed cost |
| `EditAlt.StageDrawGeometry` | benchmark/image/edit_alt.py:71-114 | each drawn box or band lies inside the image with the size range its draws allow |
| `EditAlt.PlanLength` | benchmark/image/edit_alt.py:67-129 | the blocks before the first failing one are drawn, and the run stops there with ValueError |
| `EditAlt.FirstFailValue` | benchmark/image/edit_alt.py:77-114 | the draws of a small image stop at a fixed block, set by the thresholds of 66, 68 and 72 pixels |
| `EditAlt.AlterAOrder` | benchmark/image/edit_alt.py:67-129 | IEAlterA yields in ascending order, each with its `'alteration'` label |
| `EditAlt.AlterAMembers` | benchmark/image/edit_alt.py:67-129 | on a 3-D array, x is yielded exactly when it is requested and comes before the first block whose draws raise; the run ends with ValueError exactly when such a block exists |
| `EditAlt.AlterAGrayRaises` | benchmark/image/edit_alt.py:73-75 | on a 2-D array, a request for variant 0 raises IndexError at the first subscript |
| `EditAlt.AlterAIndexIndependent` | benchmark/image/edit_alt.py:71-114 | the draws happen whether or not the index is requested, so a variant does not depend on the subset |
| `EditAlt.AlterADrawCount` | benchmark/image/edit_alt.py:71-114 | a run that does not raise consumes 18 + 2n draws, where n is the square count |
| `EditAlt.AlterAGeometry` | benchmark/image/edit_alt.py:71-117 | each yielded variant's regions lie inside the image as drawn |
| `EditAlt.AlterAGenerate` | benchmark/image/edit_alt.py:67-129 | IEAlterA.generate on the edit's generator equals `AlterARun`, cursor included |
| `EditCmp.RecipeStage` | benchmark/image/edit_cmp.py:26-99 | every recipe stage's indices are valid for its family |
| `EditCmp.First` | benchmark/image/edit_cmp.py:27 | `next(m_gen)` inside a generator: the first pair, or RuntimeError when the stage yields nothing |
| `EditCmp.ComposeSeed` | benchmark/image/edit_cmp.py:22 | each recipe's seed is a draw in [0, 2^32) |
| `EditCmp.ComposeOrder` | benchmark/image/edit_cmp.py:20-101 | recipes come out in ascending order, requested ones only; when none raises, every requested index in 0..5 is yielded and six draws are made |
| `EditCmp.ComposeIndexIndependent` | benchmark/image/edit_cmp.py:20-101 | recipe k's seed is the k-th draw whatever the requested subset |
| `EditCmp.ComposeQuality` | benchmark/image/edit_cmp.py:32-76 | the re-encode quality of recipes 0-5 is 95, 80, 80, 50, PNG and PNG; the table's values differ from the comments' Q85 and Q70 for recipes 2 and 3 |
| `EditCmp.ComposeRescaleFirst` | benchmark/image/edit_cmp.py:52-90 | recipes 2 and 4 take the first of 0.95 and 1.05 that passes the area filter |
| `EditCmp.ComposeRecipe` | benchmark/image/edit_cmp.py:24-35 | one recipe's stages chained, each `next()` on the previous stage's image, with the parameters merged |
| `EditCmp.ComposeAGenerate` | benchmark/image/edit_cmp.py:20-101 | IEComposeA.generate on the edit's generator equals `ComposeRun`: one draw per block entered |
| `Catalog.Generate` | benchmark/evaluate.py:114 | `edit.generate(image)` dispatched on the edit's class equals `EditRun` for that family |
| `Robustness.ImageEdits` | benchmark/robustness.py:23-44 | BASIC is IEBase alone; FULL is the ten families with all indices; anything else raises NotImplementedError |
| `Robustness.FullSuite` | benchmark/robustness.py:31-43 | the full suite lists each family exactly once, in catalog order, and asks for 61 variants |
| `Robustness.BasicSuite` | benchmark/robustness.py:27-30 | the basic suite is IEBase alone, with two variants |
| `Durability.ImageEdits` | benchmark/durability.py:24-60 | BASIC, QUICK and FULL as listed, all from one seed; anything else raises NotImplementedError |
| `Durability.QuickSuiteBuilds` | benchmark/durability.py:33-45 | every quick-suite index is below its family's NUM, and the suite asks for 12 variants |
| `Durability.FullSuiteAsRobustness` | benchmark/durability.py:46-59 | the durability full suite is the robustness full suite, with 61 variants |
| `Evaluate.ImageNameOf` | benchmark/evaluate.py:56 | the name of `dir/stem.ext` is the stem |
| `Evaluate.AfterLast` | benchmark/evaluate.py:56 | `split(c)[-1]` is the longest suffix without c |
| `Evaluate.BeforeFirst` | benchmark/evaluate.py:56 | `split(c)[0]` is the longest prefix without c |
| `Evaluate.Payload` | benchmark/evaluate.py:63-64 | the payload has the wrapper's payload size |
| `Evaluate.Format` | benchmark/evaluate.py:78-80 | the guessed MIME type, or "image/unknown" |
| `Evaluate.Suite` | benchmark/evaluate.py:111 | the suite is built with seed 0, and every edit of it builds |
| `Evaluate.Trial` | benchmark/evaluate.py:122-152 | raises CvError exactly when the quality is unusable or the variant is empty; otherwise a decode record: re-encoded at the variant's quality; detected when a payload came back; decoded when it equals the sent one |
| `Evaluate.VariantTrialsPerVariant` | benchmark/evaluate.py:115-152 | one record per variant, in order |
| `Evaluate.EditTrialsPerVariant` | benchmark/evaluate.py:113-152 | over all edits, one record per generated variant, in generation order |
| `Evaluate.EditTrialsRaise` | benchmark/evaluate.py:114-115 | an exception raised by an edit's generator escapes the evaluation |
| `Evaluate.VariantTrialsEmptyRaises` | benchmark/evaluate.py:130-133 | an empty variant among an edit's variants makes its trials raise |
| `Evaluate.EditTrialsEmptyRaises` | benchmark/evaluate.py:113-141 | an empty variant from any edit makes the trials raise, since re-encoding sits outside the decoder's `try` |
| `Evaluate.SuiteOpensWithBase` | benchmark/robustness.py:23-44 | every suite's first edit is IEBase with variant 0 requested |
| `Evaluate.UndecodableSourceRaises` | benchmark/evaluate.py:61-81 | a source file OpenCV cannot decode ends the evaluation with AttributeError, with or without encoding |
| `Evaluate.UndecodableMarkRaises` | benchmark/evaluate.py:96-101 | watermarked bytes OpenCV cannot decode end the evaluation with AttributeError before any decode trial |
| `Evaluate.EditTrialsFlags` | benchmark/evaluate.py:122-152 | every decode record names the image and has decoded only when detected |
| `Evaluate.EncodeErrorOneRecord` | benchmark/evaluate.py:61-93 | when encoding raises, the evaluation is one failed encode record, unless the source could not be decoded, which raises AttributeError first |
| `Evaluate.EncodeThenDecode` | benchmark/evaluate.py:75-115 | a successful encoding evaluation decoded both the source and the watermarked bytes; its encode record comes first, error-free, and the decode trials run on the watermarked image |
| `Evaluate.DecodeOnly` | benchmark/evaluate.py:107-115 | a successful decode-only evaluation decoded the source; it has no encode record, and the trials run on the source image |
| `Evaluate.EvaluationFlags` | benchmark/evaluate.py:75-152 | every record of an evaluation names the image and follows the detection rule |
| `Evaluate.TryVariant` | benchmark/evaluate.py:122-152 | the loop body equals `Trial` |
| `Evaluate.TryVariants` | benchmark/evaluate.py:115-152 | the loop over an edit's variants equals `VariantTrials` |
| `Evaluate.TryEdits` | benchmark/evaluate.py:111-152 | the loop over the edits equals `EditTrials` of their runs |
| `Evaluate.RunEdit` | benchmark/evaluate.py:111-114 | an edit of the list, built from its request with a generator of its own, generates exactly `EditRun` of its family, indices and seed on the image |
| `Evaluate.EvaluateImage` | benchmark/evaluate.py:43-154 | `evaluate_image` equals `Evaluation` |
| `Bench.Lookup` | bench.py:82-91 | a dictionary lookup returns the value, or raises KeyError |
| `Bench.Tag` | bench.py:96-100 | every row gets the watermark, dataset and evaluation columns, and nothing else changes |
| `Bench.PresetFlags` | bench.py:85-92 | the presets other than NONE process images, and only IMG_NEGATIVE skips encoding |
| `Bench.ModesCoverPresets` | bench.py:53-57 | every preset that processes images has a suite |
| `Bench.Raises` | bench.py:77-106 | a wrapper that is not an image wrapper raises NotImplementedError; dataset NONE raises KeyError |
| `Bench.NoneWritesNothing` | bench.py:85-96 | the NONE preset processes no image and writes no file |
| `Bench.ImagesPrefix` | bench.py:87-94 | results are extended image by image, in file order |
| `Bench.ImagesErrPrefix` | bench.py:87-94 | an exception from one image ends the run |
| `Bench.ImagesRows` | bench.py:87-94 | every row comes from the evaluation of one of the dataset's images |
| `Bench.NegativeDecodesOnly` | bench.py:92 | with IMG_NEGATIVE every row is a decode trial |
| `Bench.Written` | bench.py:82-102 | a file is written exactly when some row was produced, at `results/{name}.{dataset}.{evaluation}.json`, holding the tagged rows |
| `Bench.RunBenchmark` | bench.py:68-106 | `benchmark(...)` equals `Benchmark` |
| `Analyze.Load` | analysis/analyze.py:26-34 | a name loads every matching results file in glob order; no matching file raises ValueError (`pd.concat([])`) |
| `Analyze.Prune` | analysis/analyze.py:37-38 | a row is kept exactly when its dataset contains "IMG" and it has no error, with its multiplicity |
| `Analyze.PruneAppend` | analysis/analyze.py:37-38 | pruning a concatenation prunes each part, so kept rows keep their order |
| `Analyze.EvaluationSubset` | analysis/analyze.py:45-47 | exactly the rows with an edit type and the preset's evaluation value, with their multiplicity |
| `Analyze.EvaluationSubsetAppend` | analysis/analyze.py:45-47 | the subset of a concatenation is the concatenation of the subsets, so row order is kept |
| `Analyze.ContentSize` | analysis/analyze.py:59-63 | 0 for fewer than two dimensions, else the integer nearest to sqrt(h*w) |
| `Analyze.NearestUnique` | analysis/analyze.py:61 | only one integer is nearest to sqrt(h*w) |
| `Analyze.Encodes` | analysis/analyze.py:54 | exactly the encode rows, with their multiplicity |
| `Analyze.EncodesAppend` | analysis/analyze.py:54 | the encode rows of a concatenation are those of each part in turn, so their order is kept |
| `Analyze.PerSummary` | analysis/analyze.py:53-74 | one `df_per` row per encode row (the left merge) |
| `Analyze.DecodeCountsOrdered` | analysis/analyze.py:66-71 | per content item: decoded <= detected <= total |
| `Analyze.PerSummaryOrdered` | analysis/analyze.py:66-72 | every merged decode summary has decoded <= detected <= total |
| `Analyze.PerFromKept` | analysis/analyze.py:37-54 | every `df_per` row comes from a kept encode row |
| `Analyze.Distinct` | analysis/analyze.py:92 | the group keys: every key once, none repeated |
| `Analyze.EditRows` | analysis/analyze.py:89-93 | one `df_edit` row per group key, with that group's sums |
| `Analyze.EditCountPositive` | analysis/analyze.py:85-92 | a group's count is positive exactly when the key occurs in the rows |
| `Analyze.EditDecodedAtMostCount` | analysis/analyze.py:89-92 | a group's decoded and error sums never exceed its count |
| `Analyze.EditNtimeMean` | analysis/analyze.py:86-93 | when every row's ntime is within [lo, hi], so is the group's ntime |
| `Analyze.DecTotalsPerTrial` | analysis/analyze.py:119-124 | re-summing `ntime * count` per triple gives exactly the per-triple sums of the raw trials |
| `Analyze.DecScoreBounds` | analysis/analyze.py:125 | `dec_score` lies in [0, 100] |
| `Analyze.EncCountPositive` | analysis/analyze.py:103-111 | `enc_count` is positive exactly when the triple has an encode row |
| `Analyze.PcpaTermPositive` | analysis/analyze.py:107-111 | the summed damping terms are positive whenever the count is |
| `Analyze.PcpaTermBounds` | analysis/analyze.py:107 | `10/(10 + pcpa)` decreases as pcpa grows |
| `Analyze.PsnrMean` | analysis/analyze.py:112 | when every row's psnr is within [lo, hi], so is `enc_psnr` |
| `Analyze.PcpaMean` | analysis/analyze.py:107-114 | when every row's pcpa is within [lo, hi], so is the harmonic aggregate `enc_pcpa` |
| `Analyze.EncNtimeIsASum` | analysis/analyze.py:104-111 | as written, two rows of ntime 1.0 give `enc_ntime` 2.0 |
| `Analyze.EncNtimeMean` | analysis/analyze.py:104-111 | corrected: when every row's ntime is within [lo, hi], so is `enc_ntime` |
| `Analyze.ScoreKeys` | analysis/analyze.py:127-129 | the outer join holds a triple exactly when it has an encode row or a decode trial; each side is present exactly when it has rows |
| `Analyze.ImageAnalysis.constructor` | analysis/analyze.py:34-43 | `df` is the pruned rows, and the three summaries are computed from it in order |
| `Analyze.ImageAnalysis.SummarizePer` | analysis/analyze.py:49-74 | sets `df_per` and nothing else |
| `Analyze.ImageAnalysis.SummarizeEdit` | analysis/analyze.py:76-95 | sets `df_edit` from `df` merged with the content sizes, and nothing else |
| `Analyze.ImageAnalysis.SummarizeScore` | analysis/analyze.py:97-131 | sets `df_score` and nothing else |
| `Analyze.Analyze` | analysis/analyze.py:24-43 | `ImageAnalysis(input)` raises exactly when loading does; otherwise `df` is the pruned loaded rows, and `df_per`, `df_edit` and `df_score` are the summaries computed from it in order |

## Left out

- Pixel arithmetic inside OpenCV is not modelled. This covers `resize`, `warpAffine`,
  `cvtColor`, `GaussianBlur`, `putText`, `imencode` and `imdecode`. Each is a parameter, and
  only its shape and error behaviour are stated.
- The watermark wrapper's `encode` and `decode` are parameters, given as results per input.
- `perceptibility.assess_image` (psnr, ssim, tpcp) is a parameter. `pcpa.py` and `tpcp.py` are
  not part of this model. The metrics' own failures are not modelled, except on a missing
  image: a watermarked image whose shape differs from the source's makes the metrics raise in
  the code, while the model's `assess` always returns scores.
- The analysis reads a perceptibility column named `pcpa` (analysis/analyze.py:54-58), while
  the executor writes `tpcp`. As written, selecting `pcpa` from the executor's rows raises
  KeyError in `summarize_per`. The model treats the two names as one field and does not model
  that KeyError.
- Clocks are left out. `time_taken_ms` of the n-th timed call is a supplied function of n.
- Logging and the debug display (`display_frame`, `print`) are left out.
- The file system is a parameter. This covers `glob`, file reading, `mimetypes.guess_type`,
  `os.getcwd`, `pd.read_json` and `to_json`. Python's string `hash` is a supplied function.
- numpy's PCG64 bit generator is not modelled. A seed starts an abstract stream of values. A
  bounded draw maps one stream value into its range, and the draw order is exactly the code's.
- Floating point is not modelled. Numbers are exact reals, and float rounding is not captured.
  - `int(x)` is the floor of a non-negative real.
  - `np.sqrt` in the fixed-area rescale and in `content_size` is the exact integer square
    root.
  - `np.round` is rounding half to even.
  - `pow` in the gamma table is a parameter.
  - `psnr` is never infinite.
- Missing values are options, not NaN.
  - The left merge in `summarize_per` gives no decode sums to an item without decode rows.
  - A row without a content size has no `ntime`, and the group sum skips it.
- FilterBPosterize: states the corrected posterize (`EditFil.Posterize`, capped at 252). As
  written, IEFilterB's variant 2 maps channel values 254 and 255 to 0 (`EditFil.PosterizeOverflow`).
- Generate: `Catalog.Generate` equals `Catalog.EditRun`, which runs the corrected IEBase
  (`Edit.BaseGenerate`, variant 1 keyed by `'jpeg_quality'`) and the corrected posterize. As
  written, IEBase's variant 1 is keyed by the enum member and posterize wraps 254 and 255 to 0.
- RunEdit: `Evaluate.RunEdit` generates `EditRun`, and so does every entry of `Evaluate.Runs`.
  Both have the same two differences from the code as `Catalog.Generate`. IEComposeA's recipes
  never run IEBase or IEFilterB, so `EditCmp.ComposeRun` is as written.
- EvaluateImage: `Evaluate.EvaluateImage` equals `Evaluate.Evaluation`. There, IEBase's
  variant 1 is re-encoded as JPEG at quality 95, where the code re-encodes it as PNG. A
  posterized variant has 252 where the code has 0.
- RunBenchmark: `Bench.RunBenchmark` equals `Bench.Benchmark`, whose rows come from
  `Evaluation` and carry the same two differences.
- constructor, Analyze: `Analyze.ImageAnalysis.constructor`, and `Analyze.Analyze` through it,
  build `df_score` with `enc_ntime` as the mean per encode row (`Analyze.EncScoreOf`).
  analysis/analyze.py:104 and 111-114 keep the per-triple sum (`Analyze.EncNtimeAsWritten`).
- SummarizeScore, ScoreSummary: `Analyze.ImageAnalysis.SummarizeScore` sets `df_score` to
  `Analyze.ScoreSummary`, whose `enc_ntime` is the same mean, not the code's sum.
- CastU8, OverlayValue, OverlayBox, OverlayLines, PosterizeAsWritten: a float outside
  [0, 256) cast by `astype(np.uint8)` is platform-defined in numpy. `Frames.CastU8` assumes
  truncation toward zero, then wrap-around modulo 256. This fixes the bright overlay values
  (`EditAlt.OverlayValue`, which feeds `OverlayBox` and `OverlayLines`) and the 0 of
  `EditFil.PosterizeAsWritten`.
- `Analyze.EncScoreOf`: `enc_sdsm = -log2(1 - mean ssim)` is kept as the mean ssim, because
  the model has no logarithm.
- Group-by sorts groups by key. The model keeps groups in order of first appearance, and the
  score table is a map keyed by the triple. Only the order of the rows differs.
- `edit_type` is the family's class name, a string. Python's class objects are not modelled.
- `get_evaluation_subset` is modelled (`Analyze.EvaluationSubset`). It has no caller in the
  analysed code.
- The `main` entry point and `simple_logging_setup` in bench.py are I/O setup and are not
  modelled.

## Findings

| source | as written | input that shows it | evidently intended | confidence | as-written member | corrected member |
|---|---|---|---|---|---|---|
| benchmark/image/edit.py:59 | IEBase keys its JPEG quality with the enum member `ImageEditParams.JPEG_Q`. The executor looks for the string `'jpeg_quality'` (benchmark/evaluate.py:130), so variant 1 is re-encoded as PNG | `IEBase(0).generate(image)` with both variants requested | key by `ImageEditParams.JPEG_Q.value`, as IECompressJPEG does, so the variant is re-encoded as JPEG at quality 95 | not executed | `Edit.BaseGenerateAsWritten`, `Edit.BaseJpegVariantReencodedAsPng` | `Edit.BaseGenerate` |
| analysis/analyze.py:104-114 | `enc_ntime` is summed per triple and never divided by `enc_count`, unlike `enc_psnr`, `enc_ssim` and `enc_pcpa` | two encode rows of one triple, each with ntime 1.0, give `enc_ntime` 2.0 | the mean ntime per encode trial, as `summarize_edit` computes it (line 93) | not executed | `Analyze.EncNtimeAsWritten`, `Analyze.EncNtimeIsASum` | `Analyze.EncScoreOf`, `Analyze.EncNtimeMean` |
| benchmark/image/edit_fil.py:83 | posterize rounds p/4 and multiplies by 4, so 254 and 255 reach 256, and the `uint8` cast wraps that to 0 | a pixel of value 254 or 255 | the nearest multiple of 4 that fits in uint8, 252 | not executed | `EditFil.PosterizeAsWritten`, `EditFil.PosterizeOverflow` | `EditFil.Posterize`, `EditFil.PosterizeNearest` |
