/** bench.py: `benchmark(wrapper_class, dataset, evaluation)`, one watermark
    run over every image of a dataset, its rows tagged and written to one
    results file. */
module Bench {
  import opened Common
  import opened Evaluate
  import R = Robustness

  /** BenchmarkDataset; `DatasetNone` is NONE, whose value is ''. */
  datatype BenchmarkDataset = DatasetNone | Img0 | Img1 | Img2 {
    function Value(): (v: string)
      ensures v == "" <==> this == DatasetNone
    {
      match this
      case DatasetNone => ""
      case Img0 => "IMG_0"
      case Img1 => "IMG_1"
      case Img2 => "IMG_2"
    }
  }

  /** BenchmarkEvaluation; `EvaluationNone` is NONE, whose value is ''. */
  datatype BenchmarkEvaluation = EvaluationNone | ImgSimple | ImgNegative | ImgRobustness {
    function Value(): (v: string)
      ensures v == "" <==> this == EvaluationNone
    {
      match this
      case EvaluationNone => ""
      case ImgSimple => "IMG_SIMPLE"
      case ImgNegative => "IMG_NEGATIVE"
      case ImgRobustness => "IMG_ROBUSTNESS"
    }
  }

  /** DATASET_FILES: the glob pattern of each dataset; NONE has none. */
  const DatasetFiles: map<BenchmarkDataset, string> :=
    map[Img0 := "img_0/*", Img1 := "img_1/*", Img2 := "img_2/*"]

  /** EVALUATION_MODES: the robustness suite of each preset; NONE has none. */
  const EvaluationModes: map<BenchmarkEvaluation, R.ImageEvaluation> :=
    map[ImgSimple := R.V1Basic, ImgNegative := R.V1Basic, ImgRobustness := R.V1Full]

  /** `ImageWrapper.TYPE`. */
  const ImageType: string := "IMAGE"

  /** A Python dictionary lookup: the value, or KeyError. */
  function Lookup<K, V>(m: map<K, V>, k: K): (r: Result<V>)
    ensures r.Ok? <==> k in m
    ensures r.Ok? ==> r.value == m[k]
    ensures r.Err? ==> r.error == KeyError
  {
    if k in m then Ok(m[k]) else Err(KeyError)
  }

  /** The file system as the benchmark sees it. */
  datatype Host = Host(
    cwd: string,                    // os.getcwd()
    glob: string -> seq<string>)    // glob.glob(pattern), in its order

  /** The results file: its path and its rows. */
  datatype Output = Output(path: string, rows: seq<Record>)

  /** `results.extend(evaluate_image(path, ...))` over the paths in turn;
      the first exception escapes. */
  function Images(world: World, paths: seq<string>, wrapper: Wrapper, evaluation: BenchmarkEvaluation): Result<seq<Record>>
    decreases |paths|
  {
    if paths == [] then Ok([])
    else match Images(world, paths[..|paths| - 1], wrapper, evaluation)
      case Err(e) => Err(e)
      case Ok(rs) =>
        match Lookup(EvaluationModes, evaluation)
        case Err(e) => Err(e)
        case Ok(mode) =>
          var encode := !Contains(evaluation.Value(), "NEG");
          match Evaluation(world, paths[|paths| - 1], wrapper, mode, encode)
          case Err(e) => Err(e)
          case Ok(more) => Ok(rs + more)
  }

  /** The three columns the benchmark sets on every row. */
  function Tag(rows: seq<Record>, watermark: string, dataset: string, evaluation: string): (r: seq<Record>)
    ensures |r| == |rows|
    ensures forall i :: 0 <= i < |rows| ==>
      r[i] == rows[i].(watermark := watermark, dataset := dataset, evaluation := evaluation)
  {
    seq(|rows|, (i: int) requires 0 <= i < |rows| =>
      rows[i].(watermark := watermark, dataset := dataset, evaluation := evaluation))
  }

  /** `{cwd}/results/{name}.{dataset}.{evaluation}.json`. */
  function OutputPath(cwd: string, name: string, dataset: BenchmarkDataset, evaluation: BenchmarkEvaluation): string {
    cwd + "/results/" + name + "." + dataset.Value() + "." + evaluation.Value() + ".json"
  }

  /** `benchmark(wrapper_class, dataset, evaluation)`: the results file it
      writes (None when it writes none), or the exception it raises. */
  function Benchmark(world: World, host: Host, wrapperType: string, wrapper: Wrapper,
                     dataset: BenchmarkDataset, evaluation: BenchmarkEvaluation): Result<Option<Output>>
  {
    if wrapperType != ImageType then Err(NotImplemented)
    else match Lookup(DatasetFiles, dataset)
      case Err(e) => Err(e)
      case Ok(pattern) =>
        var paths := host.glob(host.cwd + "/dataset/" + pattern);
        var results := if Contains(evaluation.Value(), "IMG") then Images(world, paths, wrapper, evaluation) else Ok([]);
        match results
        case Err(e) => Err(e)
        case Ok(rs) =>
          if |rs| == 0 then Ok(None)
          else Ok(Some(Output(OutputPath(host.cwd, wrapper.name, dataset, evaluation),
                              Tag(rs, wrapper.name, dataset.Value(), evaluation.Value()))))
  }

  // ---------------------------------------------------------------------
  // Properties

  /** 'NEG' is not in 'IMG_SIMPLE'. */
  lemma SimpleHasNoNeg()
    ensures !Contains("IMG_SIMPLE", "NEG")
  {
    var v, t := "IMG_SIMPLE", "NEG";
    assert !Contains(v[8..], t);
    ContainsSkip(v[7..], t, 0);
    ContainsSkip(v[6..], t, 0);
    ContainsSkip(v[5..], t, 0);
    ContainsSkip(v[4..], t, 0);
    ContainsSkip(v[3..], t, 0);
    ContainsSkip(v[2..], t, 0);
    ContainsSkip(v[1..], t, 0);
    ContainsSkip(v, t, 0);
  }

  /** 'NEG' is not in 'IMG_ROBUSTNESS': its only N is followed by "ES". */
  lemma RobustnessHasNoNeg()
    ensures !Contains("IMG_ROBUSTNESS", "NEG")
  {
    var v, t := "IMG_ROBUSTNESS", "NEG";
    assert !Contains(v[12..], t);
    ContainsSkip(v[11..], t, 0);
    ContainsSkip(v[10..], t, 2);
    ContainsSkip(v[9..], t, 0);
    ContainsSkip(v[8..], t, 0);
    ContainsSkip(v[7..], t, 0);
    ContainsSkip(v[6..], t, 0);
    ContainsSkip(v[5..], t, 0);
    ContainsSkip(v[4..], t, 0);
    ContainsSkip(v[3..], t, 0);
    ContainsSkip(v[2..], t, 0);
    ContainsSkip(v[1..], t, 0);
    ContainsSkip(v, t, 0);
  }

  /** Which presets process images ('IMG' in the value) and which encode
      first ('NEG' not in the value): every preset but NONE processes
      images, and all but IMG_NEGATIVE encode. */
  lemma PresetFlags(evaluation: BenchmarkEvaluation)
    ensures Contains(evaluation.Value(), "IMG") <==> evaluation != EvaluationNone
    ensures Contains(evaluation.Value(), "NEG") <==> evaluation == ImgNegative
  {
    var v := evaluation.Value();
    match evaluation
    case EvaluationNone =>
    case ImgSimple =>
      assert v[..3] == "IMG";
      SimpleHasNoNeg();
    case ImgNegative =>
      assert v[..3] == "IMG";
      assert v[4..][..3] == "NEG";
      assert Contains(v[3..], "NEG");
      assert Contains(v[2..], "NEG");
      assert Contains(v[1..], "NEG");
    case ImgRobustness =>
      assert v[..3] == "IMG";
      RobustnessHasNoNeg();
  }

  /** Every preset that processes images has a robustness suite: the
      EVALUATION_MODES lookup never raises. */
  lemma ModesCoverPresets(evaluation: BenchmarkEvaluation)
    requires Contains(evaluation.Value(), "IMG")
    ensures Lookup(EvaluationModes, evaluation).Ok?
  {
    PresetFlags(evaluation);
  }

  /** Only image wrappers are supported; and an image wrapper run on the
      NONE dataset raises KeyError, whatever the preset. */
  lemma Raises(world: World, host: Host, wrapperType: string, wrapper: Wrapper,
               dataset: BenchmarkDataset, evaluation: BenchmarkEvaluation)
    ensures wrapperType != ImageType ==> Benchmark(world, host, wrapperType, wrapper, dataset, evaluation) == Err(NotImplemented)
    ensures wrapperType == ImageType && dataset == DatasetNone ==>
      Benchmark(world, host, wrapperType, wrapper, dataset, evaluation) == Err(KeyError)
  {
    hide Images;
  }

  /** The NONE preset processes no image and so writes no file. */
  lemma NoneWritesNothing(world: World, host: Host, wrapper: Wrapper, dataset: BenchmarkDataset)
    requires dataset != DatasetNone
    ensures Benchmark(world, host, ImageType, wrapper, dataset, EvaluationNone) == Ok(None)
  {
    hide Images;
    PresetFlags(EvaluationNone);
  }

  /** The images' rows in file order: the rows of the first k images are a
      prefix of all rows, and the exception of any image escapes. */
  lemma {:induction false} ImagesPrefix(world: World, paths: seq<string>, wrapper: Wrapper, evaluation: BenchmarkEvaluation, k: nat)
    requires k <= |paths| && Images(world, paths, wrapper, evaluation).Ok?
    ensures Images(world, paths[..k], wrapper, evaluation).Ok?
    ensures Images(world, paths[..k], wrapper, evaluation).value <= Images(world, paths, wrapper, evaluation).value
    decreases |paths|
  {
    hide Evaluation;
    if k < |paths| {
      var front := paths[..|paths| - 1];
      assert front[..k] == paths[..k];
      ImagesPrefix(world, front, wrapper, evaluation, k);
    } else {
      assert paths[..k] == paths;
    }
  }

  /** rec is a row of one of the images at paths: it carries that image's
      name and follows the detection rule. */
  predicate FromImages(rec: Record, paths: seq<string>) {
    exists k :: 0 <= k < |paths| && RowOf(rec, ImageName(paths[k]))
  }

  /** One step of `Images`: when all images succeed, the rows are those of
      all but the last file followed by the last file's evaluation. */
  lemma ImagesStep(world: World, paths: seq<string>, wrapper: Wrapper, evaluation: BenchmarkEvaluation)
    requires paths != [] && Images(world, paths, wrapper, evaluation).Ok?
    ensures evaluation in EvaluationModes
    ensures Images(world, paths[..|paths| - 1], wrapper, evaluation).Ok?
    ensures var e := Evaluation(world, paths[|paths| - 1], wrapper, EvaluationModes[evaluation],
                                !Contains(evaluation.Value(), "NEG"));
      && e.Ok?
      && Images(world, paths, wrapper, evaluation).value
         == Images(world, paths[..|paths| - 1], wrapper, evaluation).value + e.value
  {
    hide Evaluation;
  }

  lemma FromFront(rec: Record, paths: seq<string>)
    requires paths != [] && FromImages(rec, paths[..|paths| - 1])
    ensures FromImages(rec, paths)
  {
    hide RowOf;
    var front := paths[..|paths| - 1];
    var k :| 0 <= k < |front| && RowOf(rec, ImageName(front[k]));
    assert front[k] == paths[k];
  }

  lemma FromLast(rec: Record, paths: seq<string>)
    requires paths != [] && RowOf(rec, ImageName(paths[|paths| - 1]))
    ensures FromImages(rec, paths)
  {
    hide RowOf;
  }

  /** Every row of the images' results is a row of the evaluation of one
      of the files, follows the detection rule and carries that file's
      image name. */
  lemma {:induction false} ImagesRows(world: World, paths: seq<string>, wrapper: Wrapper, evaluation: BenchmarkEvaluation)
    requires Images(world, paths, wrapper, evaluation).Ok?
    ensures forall rec :: rec in Images(world, paths, wrapper, evaluation).value ==> FromImages(rec, paths)
    decreases |paths|
  {
    if paths != [] {
      hide Images, Evaluation, RowOf, FromImages;
      var front := paths[..|paths| - 1];
      var last := paths[|paths| - 1];
      ImagesStep(world, paths, wrapper, evaluation);
      ImagesRows(world, front, wrapper, evaluation);
      var mode := EvaluationModes[evaluation];
      var encode := !Contains(evaluation.Value(), "NEG");
      EvaluationFlags(world, last, wrapper, mode, encode);
      var rs := Images(world, front, wrapper, evaluation).value;
      var more := Evaluation(world, last, wrapper, mode, encode).value;
      forall rec | rec in rs + more
        ensures FromImages(rec, paths)
      {
        if rec in rs {
          FromFront(rec, paths);
        } else {
          FromLast(rec, paths);
        }
      }
    }
  }

  /** With IMG_NEGATIVE nothing is encoded: every row is a decode trial. */
  lemma {:induction false} NegativeDecodesOnly(world: World, paths: seq<string>, wrapper: Wrapper)
    requires Images(world, paths, wrapper, ImgNegative).Ok?
    ensures forall rec :: rec in Images(world, paths, wrapper, ImgNegative).value ==> rec.operation == "decode"
    decreases |paths|
  {
    hide Evaluation;
    if paths != [] {
      var front := paths[..|paths| - 1];
      var last := paths[|paths| - 1];
      NegativeDecodesOnly(world, front, wrapper);
      PresetFlags(ImgNegative);
      DecodeOnly(world, last, wrapper, R.V1Basic);
      assert Images(world, paths, wrapper, ImgNegative).value
        == Images(world, front, wrapper, ImgNegative).value + Evaluation(world, last, wrapper, R.V1Basic, false).value;
    }
  }

  /** What the benchmark writes: a file exactly when some row was produced,
      named after the watermark, dataset and preset, holding the rows of
      the images in file order with the three columns set, each row
      following the detection rule and naming one of the dataset's images. */
  lemma Written(world: World, host: Host, wrapper: Wrapper, dataset: BenchmarkDataset, evaluation: BenchmarkEvaluation)
    requires dataset != DatasetNone && evaluation != EvaluationNone
    requires Benchmark(world, host, ImageType, wrapper, dataset, evaluation).Ok?
    ensures var paths := host.glob(host.cwd + "/dataset/" + DatasetFiles[dataset]);
      var rs := Images(world, paths, wrapper, evaluation);
      var r := Benchmark(world, host, ImageType, wrapper, dataset, evaluation).value;
      && rs.Ok?
      && (r.None? <==> rs.value == [])
      && (r.Some? ==>
        && r.value.path == OutputPath(host.cwd, wrapper.name, dataset, evaluation)
        && |r.value.rows| == |rs.value|
        && forall i :: 0 <= i < |rs.value| ==>
          && r.value.rows[i] == rs.value[i].(watermark := wrapper.name, dataset := dataset.Value(), evaluation := evaluation.Value())
          && FromImages(rs.value[i], paths))
  {
    hide Images, Evaluation, RowOf;
    PresetFlags(evaluation);
    var paths := host.glob(host.cwd + "/dataset/" + DatasetFiles[dataset]);
    ImagesRows(world, paths, wrapper, evaluation);
    assert Lookup(DatasetFiles, dataset) == Ok(DatasetFiles[dataset]);
    var rs := Images(world, paths, wrapper, evaluation).value;
    var r := Benchmark(world, host, ImageType, wrapper, dataset, evaluation).value;
    forall i | 0 <= i < |rs|
      ensures FromImages(rs[i], paths)
    {
      assert rs[i] in rs;
    }
    if rs == [] {
      assert r == None;
    } else {
      assert r == Some(Output(OutputPath(host.cwd, wrapper.name, dataset, evaluation),
                              Tag(rs, wrapper.name, dataset.Value(), evaluation.Value())));
    }
  }

  // ---------------------------------------------------------------------
  // benchmark as the code runs it

  /** `benchmark(wrapper_class, dataset, evaluation)`. */
  method RunBenchmark(world: World, host: Host, wrapperType: string, wrapper: Wrapper,
                      dataset: BenchmarkDataset, evaluation: BenchmarkEvaluation) returns (r: Result<Option<Output>>)
    ensures r == Benchmark(world, host, wrapperType, wrapper, dataset, evaluation)
  {
    hide Evaluation, Tag;
    if wrapperType != ImageType {
      return Err(NotImplemented);
    }
    var results: seq<Record> := [];
    var pattern := Lookup(DatasetFiles, dataset);
    if pattern.Err? {
      return Err(pattern.error);
    }
    var paths := host.glob(host.cwd + "/dataset/" + pattern.value);
    if Contains(evaluation.Value(), "IMG") {
      ModesCoverPresets(evaluation);
      assert Images(world, paths[..0], wrapper, evaluation) == Ok([]);
      hide Images;
      for k := 0 to |paths|
        invariant Images(world, paths[..k], wrapper, evaluation) == Ok(results)
      {
        var mode := Lookup(EvaluationModes, evaluation);
        var encode := !Contains(evaluation.Value(), "NEG");
        var rows := EvaluateImage(world, paths[k], wrapper, mode.value, encode);
        ImagesNext(world, paths, wrapper, evaluation, k, results);
        if rows.Err? {
          ImagesErrPrefix(world, paths, wrapper, evaluation, k + 1);
          return Err(rows.error);
        }
        results := results + rows.value;
      }
      assert paths[..|paths|] == paths;
    }
    if |results| > 0 {
      var tagged := Tag(results, wrapper.name, dataset.Value(), evaluation.Value());
      r := Ok(Some(Output(OutputPath(host.cwd, wrapper.name, dataset, evaluation), tagged)));
    } else {
      r := Ok(None);
    }
  }

  /** One more image's evaluation extends the rows so far, or ends the
      run with its exception. */
  lemma ImagesNext(world: World, paths: seq<string>, wrapper: Wrapper, evaluation: BenchmarkEvaluation,
                   k: nat, rs: seq<Record>)
    requires evaluation in EvaluationModes
    requires k < |paths| && Images(world, paths[..k], wrapper, evaluation) == Ok(rs)
    ensures var e := Evaluation(world, paths[k], wrapper, EvaluationModes[evaluation],
                                !Contains(evaluation.Value(), "NEG"));
      Images(world, paths[..k + 1], wrapper, evaluation) == if e.Err? then Err(e.error) else Ok(rs + e.value)
  {
    hide Evaluation;
    assert paths[..k + 1][..k] == paths[..k];
  }

  /** An exception among the first k images ends the run. */
  lemma {:induction false} ImagesErrPrefix(world: World, paths: seq<string>, wrapper: Wrapper, evaluation: BenchmarkEvaluation, k: nat)
    requires k <= |paths| && Images(world, paths[..k], wrapper, evaluation).Err?
    ensures Images(world, paths, wrapper, evaluation) == Images(world, paths[..k], wrapper, evaluation)
    decreases |paths| - k
  {
    hide Evaluation;
    if k < |paths| {
      var front := paths[..|paths| - 1];
      assert front[..k] == paths[..k];
      ImagesErrPrefix(world, front, wrapper, evaluation, k);
    } else {
      assert paths[..k] == paths;
    }
  }
}
