/** The edit catalog as the suites use it: `edit.generate(image)` for an
    edit of any family, dispatched on the edit's class. */
module Catalog {
  import opened Common
  import opened Frames
  import opened Random
  import opened Edit
  import opened EditRst
  import opened EditFil
  import opened EditAlt
  import opened EditCmp

  /** `generate(image)` of a `family` edit whose generator reads `src` from
      position `pos`: every variant it yields (or the exception it ends
      with), and the generator position afterwards. */
  function EditRun(cv: Cv, seeder: Seeder, family: Family, src: Stream, pos: nat, indices: seq<int>, image: Img): (Gen, nat) {
    match family
    case Base => (BaseGenerate(indices, image), pos)
    case CompressJpeg => (CompressJpegGenerate(indices, image), pos)
    case Crop => CropRun(src, pos, indices, image)
    case Rescale => (RescaleGenerate(cv, indices, image), pos)
    case RotateA => (RotateAVariants(indices, image, Draw(src, pos, 1, 4), Draw(src, pos + 1, 1, 4)), pos + 2)
    case RotateB => (RotateBVariants(cv, RotateBAngles(src, pos), indices, image), pos + 5)
    case FilterA => (FilterARun(cv, indices, image), pos)
    case FilterB => (FilterBRun(cv, indices, image), pos)
    case AlterA => AlterARun(cv, src, pos, indices, image)
    case ComposeA => ComposeRun(cv, seeder, src, pos, indices, image)
  }

  /** `edit.generate(image)`, run to the end. */
  method Generate(cv: Cv, seeder: Seeder, edit: ImageEdit, image: Img) returns (g: Gen)
    modifies edit.rng
    ensures (g, edit.rng.cursor) == EditRun(cv, seeder, edit.family, edit.rng.source, old(edit.rng.cursor), edit.indices, image)
  {
    hide BaseGenerate, CompressJpegGenerate, RescaleGenerate, FilterARun, FilterBRun;
    match edit.family
    case Base =>
      g := BaseGenerate(edit.indices, image);
    case CompressJpeg =>
      g := CompressJpegGenerate(edit.indices, image);
    case Rescale =>
      g := RescaleGenerate(cv, edit.indices, image);
    case FilterA =>
      g := FilterAGenerate(cv, edit.indices, image);
    case FilterB =>
      g := FilterBRun(cv, edit.indices, image);
    case _ =>
      g := GenerateDrawing(cv, seeder, edit, image);
  }

  /** The families whose `generate` draws from the edit's generator. */
  method GenerateDrawing(cv: Cv, seeder: Seeder, edit: ImageEdit, image: Img) returns (g: Gen)
    requires edit.family in {Crop, RotateA, RotateB, AlterA, ComposeA}
    modifies edit.rng
    ensures (g, edit.rng.cursor) == EditRun(cv, seeder, edit.family, edit.rng.source, old(edit.rng.cursor), edit.indices, image)
  {
    hide CropRun, RotateAVariants, RotateBVariants, AlterARun, ComposeRun, RotateBAngles, Draw;
    match edit.family
    case Crop =>
      g := CropGenerate(edit.rng, edit.indices, image);
    case RotateA =>
      g := RotateAGenerate(edit.rng, edit.indices, image);
    case RotateB =>
      g := RotateBGenerate(cv, edit.rng, edit.indices, image);
    case AlterA =>
      g := AlterAGenerate(cv, edit.rng, edit.indices, image);
    case ComposeA =>
      g := ComposeAGenerate(cv, seeder, edit.rng, edit.indices, image);
  }
}
