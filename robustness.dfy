/** benchmark/robustness.py: the evaluation modes of the image benchmark,
    each a fixed list of edits built from one shared seed. */
module Robustness {
  import opened Common
  import opened Edit

  /** ImageEvaluation. */
  datatype ImageEvaluation = V1Basic | V1Full

  /** The ten families of the full suite, in list order. */
  const FullFamilies: seq<Family> :=
    [Base, CompressJpeg, Crop, Rescale, RotateA, RotateB, FilterA, FilterB, AlterA, ComposeA]

  /** Every family with its default (all) indices, built from `seed`. */
  function AllIndices(families: seq<Family>, seed: int): (r: seq<EditRequest>)
    ensures |r| == |families|
    ensures forall i :: 0 <= i < |r| ==> r[i] == EditRequest(families[i], seed, None)
  {
    seq(|families|, (i: int) requires 0 <= i < |families| => EditRequest(families[i], seed, None))
  }

  /** `image_edits(mode, random_seed=0)`. A mode is `None` when the
      argument is not a member of ImageEvaluation (the identity tests all
      fail and NotImplementedError is raised). */
  function ImageEdits(mode: Option<ImageEvaluation>, seed: int := 0): (r: Result<seq<EditRequest>>)
    ensures mode.None? <==> r.Err?
    ensures r.Err? ==> r.error == NotImplemented
    ensures mode == Some(V1Basic) ==> r == Ok([EditRequest(Base, seed, None)])
    ensures mode == Some(V1Full) ==> r.Ok? && |r.value| == 10
    ensures r.Ok? ==> forall i :: 0 <= i < |r.value| ==> r.value[i].seed == seed && r.value[i].given.None?
  {
    match mode
    case Some(V1Basic) => Ok([EditRequest(Base, seed, None)])
    case Some(V1Full) => Ok(AllIndices(FullFamilies, seed))
    case None => Err(NotImplemented)
  }

  /** The number of variants the requests ask for: NUM for a request
      with default indices, the length of the list otherwise. */
  function VariantsAsked(reqs: seq<EditRequest>): (n: nat)
    ensures reqs == [] ==> n == 0
  {
    if reqs == [] then 0
    else
      var r := reqs[0];
      (if r.given.None? then Num(r.family) else |r.given.value|) + VariantsAsked(reqs[1..])
  }

  /** Every request of the mode builds: no AssertionError at construction. */
  predicate AllBuild(reqs: seq<EditRequest>) {
    forall i :: 0 <= i < |reqs| ==> ResolveIndices(Num(reqs[i].family), reqs[i].given).Ok?
  }

  /** The full suite's requests ask for 61 variants, counted from the end. */
  lemma FullSuiteAsks(seed: int)
    ensures ImageEdits(Some(V1Full), seed).Ok?
    ensures VariantsAsked(ImageEdits(Some(V1Full), seed).value) == 61
  {
    var r := ImageEdits(Some(V1Full), seed).value;
    assert VariantsAsked(r[9..]) == 6;
    assert VariantsAsked(r[8..]) == 15;
    assert VariantsAsked(r[7..]) == 18;
    assert VariantsAsked(r[6..]) == 24;
    assert VariantsAsked(r[5..]) == 29;
    assert VariantsAsked(r[4..]) == 32;
    assert VariantsAsked(r[3..]) == 40;
    assert VariantsAsked(r[2..]) == 48;
    assert VariantsAsked(r[1..]) == 59;
  }

  /** Family f sits at exactly one position of the full suite. */
  lemma FullSuiteOnce(seed: int, f: Family)
    ensures ImageEdits(Some(V1Full), seed).Ok?
    ensures |set i | 0 <= i < 10 && ImageEdits(Some(V1Full), seed).value[i].family == f| == 1
  {
    var r := ImageEdits(Some(V1Full), seed).value;
    var k := match f
      case Base => 0 case CompressJpeg => 1 case Crop => 2 case Rescale => 3 case RotateA => 4
      case RotateB => 5 case FilterA => 6 case FilterB => 7 case AlterA => 8 case ComposeA => 9;
    assert (set i | 0 <= i < 10 && r[i].family == f) == {k};
  }

  /** The full suite lists each family of the catalog exactly once, in
      the order Base, CompressJPEG, Crop, Rescale, RotateA, RotateB,
      FilterA, FilterB, AlterA, ComposeA, asks for 61 variants and builds. */
  lemma FullSuite(seed: int, f: Family)
    ensures var r := ImageEdits(Some(V1Full), seed);
      && r.Ok?
      && (forall i :: 0 <= i < 10 ==> r.value[i].family == FullFamilies[i])
      && |set i | 0 <= i < 10 && r.value[i].family == f| == 1
      && VariantsAsked(r.value) == 61
      && AllBuild(r.value)
  {
    hide VariantsAsked;
    FullSuiteAsks(seed);
    FullSuiteOnce(seed, f);
  }

  /** The basic suite is IEBase alone: two variants. */
  lemma BasicSuite(seed: int)
    ensures var r := ImageEdits(Some(V1Basic), seed);
      r.Ok? && VariantsAsked(r.value) == 2 && AllBuild(r.value)
  {
    var r := ImageEdits(Some(V1Basic), seed).value;
    assert VariantsAsked(r[1..]) == 0;
  }
}
