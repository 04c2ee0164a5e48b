/** benchmark/durability.py: the robustness test suites, including the
    quick suite that asks each family for a small subset of its variants. */
module Durability {
  import opened Common
  import opened Edit
  import R = Robustness

  /** ImageRobustnessTests. */
  datatype ImageRobustnessTests = V1Basic | V1Quick | V1Full

  /** The quick suite: IEBase with all indices, then one or two chosen
      variants of eight other families (FilterB is not in it). */
  function QuickSuite(seed: int): (r: seq<EditRequest>)
    ensures |r| == 9 && r[0] == EditRequest(Base, seed, None)
    ensures forall i :: 1 <= i < 9 ==> r[i].given.Some? && 1 <= |r[i].given.value| <= 2
  {
    [
      EditRequest(Base, seed, None),
      EditRequest(CompressJpeg, seed, Some([2, 5])),
      EditRequest(Crop, seed, Some([5])),
      EditRequest(Rescale, seed, Some([7])),
      EditRequest(RotateA, seed, Some([2])),
      EditRequest(RotateB, seed, Some([2])),
      EditRequest(FilterA, seed, Some([0])),
      EditRequest(AlterA, seed, Some([4])),
      EditRequest(ComposeA, seed, Some([2, 5]))
    ]
  }

  /** `image_edits(mode, random_seed=0)`; `None` is an argument that is
      not a member of ImageRobustnessTests. */
  function ImageEdits(mode: Option<ImageRobustnessTests>, seed: int := 0): (r: Result<seq<EditRequest>>)
    ensures mode.None? <==> r.Err?
    ensures r.Err? ==> r.error == NotImplemented
    ensures mode == Some(V1Basic) ==> r == Ok([EditRequest(Base, seed, None)])
    ensures r.Ok? ==> forall i :: 0 <= i < |r.value| ==> r.value[i].seed == seed
  {
    match mode
    case Some(V1Basic) => Ok([EditRequest(Base, seed, None)])
    case Some(V1Quick) => Ok(QuickSuite(seed))
    case Some(V1Full) => Ok(R.AllIndices(R.FullFamilies, seed))
    case None => Err(NotImplemented)
  }

  /** The quick suite asks for 12 variants, counted from the end. */
  lemma QuickSuiteAsks(seed: int)
    ensures ImageEdits(Some(V1Quick), seed).Ok?
    ensures R.VariantsAsked(ImageEdits(Some(V1Quick), seed).value) == 12
  {
    var r := QuickSuite(seed);
    assert R.VariantsAsked(r[8..]) == 2;
    assert R.VariantsAsked(r[7..]) == 3;
    assert R.VariantsAsked(r[6..]) == 4;
    assert R.VariantsAsked(r[5..]) == 5;
    assert R.VariantsAsked(r[4..]) == 6;
    assert R.VariantsAsked(r[3..]) == 7;
    assert R.VariantsAsked(r[2..]) == 8;
    assert R.VariantsAsked(r[1..]) == 10;
  }

  /** Every index of the quick suite is below its family's NUM, so every
      edit builds, and the suite asks for 2 + 2 + 6 + 2 = 12 variants, as
      its comment says. */
  lemma QuickSuiteBuilds(seed: int)
    ensures var r := ImageEdits(Some(V1Quick), seed);
      r.Ok? && R.AllBuild(r.value) && R.VariantsAsked(r.value) == 12
  {
    hide R.VariantsAsked;
    QuickSuiteAsks(seed);
  }

  /** The full suite is the list of robustness.py; it asks for 61
      variants although its comment says 60. */
  lemma FullSuiteAsRobustness(seed: int)
    ensures ImageEdits(Some(V1Full), seed) == R.ImageEdits(Some(R.V1Full), seed)
    ensures R.VariantsAsked(ImageEdits(Some(V1Full), seed).value) == 61
  {
    R.FullSuite(seed, Base);
  }
}
