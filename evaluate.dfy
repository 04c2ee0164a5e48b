/** benchmark/evaluate.py: `evaluate_image`, one image put through the
    watermark wrapper. The image is encoded once (unless the evaluation
    only decodes), then every variant of every edit of the evaluation is
    re-encoded and decoded, each trial leaving one record. */
module Evaluate {
  import opened Common
  import opened Frames
  import opened Random
  import opened Edit
  import opened Catalog
  import R = Robustness

  /** The image wrapper under test: the external watermarking library,
      seen only through what its two calls return. */
  datatype Wrapper = Wrapper(
    name: string,
    payloadSize: nat,
    encode: (Bytes, seq<bool>) -> Result<Bytes>,      // raises, or the watermarked bytes
    decode: Bytes -> Result<Option<seq<bool>>>)       // raises, finds nothing, or the bits read

  /** A score that is never negative (the perceptibility metric clips at 0). */
  type NonNeg = r: real | r >= 0.0

  /** `perceptibility.assess_image` (floating-point metrics, not modelled). */
  datatype Assessment = Assessment(psnr: real, ssim: real, tpcp: NonNeg)

  /** What an evaluation reads from outside the program. */
  datatype World = World(
    cv: Cv,
    seeder: Seeder,                           // np.random.default_rng
    read: string -> Bytes,                    // the file's bytes
    hash: string -> int,                      // Python's salted str hash
    guessType: string -> Option<string>,      // mimetypes.guess_type(path)[0]
    assess: (Img, Img) -> Assessment,
    elapsed: nat -> nat)                      // milliseconds taken by the n-th timed call

  /** One row of results (the IMAGE_RESULTS dictionary). */
  datatype Record = Record(
    watermark: string, dataset: string, evaluation: string,
    operation: string, contentId: string, contentFormat: string, dims: seq<nat>,
    timeMs: nat, error: bool, psnr: real, ssim: real, tpcp: NonNeg,
    editType: string, editParams: Params, detected: bool, decoded: bool)

  /** IMAGE_RESULTS, the defaults every record starts from. */
  const Blank: Record :=
    Record("", "", "", "", "", "", [], 0, false, 0.0, 0.0, 0.0, "", map[], false, false)

  // ---------------------------------------------------------------------
  // The image's name, seed and payload

  /** `s.split(c)[-1]`: what follows the last c, or all of s. */
  function AfterLast(s: string, c: char): (r: string)
    ensures c !in r && |r| <= |s| && r == s[|s| - |r|..]
    ensures |r| < |s| ==> s[|s| - |r| - 1] == c
    decreases |s|
  {
    if s == [] then []
    else if s[|s| - 1] == c then []
    else
      var front, last := s[..|s| - 1], s[|s| - 1];
      var r := AfterLast(front, c);
      var res := r + [last];
      assert res == s[|s| - |res|..] by {
        assert front[|front| - |r|..] + [last] == s[|s| - |r| - 1..];
      }
      assert c !in res;
      assert |res| < |s| ==> s[|s| - |res| - 1] == front[|front| - |r| - 1];
      res
  }

  /** `s.split(c)[0]`: what precedes the first c, or all of s. */
  function BeforeFirst(s: string, c: char): (r: string)
    ensures c !in r && |r| <= |s| && r == s[..|r|]
    ensures |r| < |s| ==> s[|r|] == c
    decreases |s|
  {
    if s == [] then []
    else if s[0] == c then []
    else
      var r := BeforeFirst(s[1..], c);
      assert [s[0]] + s[1..][..|r|] == s[..|r| + 1];
      [s[0]] + r
  }

  /** `filepath.split('/')[-1].split('.')[0]`. */
  function ImageName(path: string): (r: string)
    ensures '/' !in r && '.' !in r
  {
    BeforeFirst(AfterLast(path, '/'), '.')
  }

  lemma {:induction false} AfterLastOf(dir: string, tail: string, c: char)
    requires c !in tail
    ensures AfterLast(dir + [c] + tail, c) == tail
    decreases |tail|
  {
    var s := dir + [c] + tail;
    if tail != [] {
      assert s[..|s| - 1] == dir + [c] + tail[..|tail| - 1];
      AfterLastOf(dir, tail[..|tail| - 1], c);
    }
  }

  lemma {:induction false} BeforeFirstOf(head: string, rest: string, c: char)
    requires c !in head
    ensures BeforeFirst(head + [c] + rest, c) == head
    decreases |head|
  {
    if head != [] {
      assert (head + [c] + rest)[1..] == head[1..] + [c] + rest;
      BeforeFirstOf(head[1..], rest, c);
    }
  }

  /** The name of `dir/stem.ext` is the stem. */
  lemma ImageNameOf(dir: string, stem: string, ext: string)
    requires '/' !in stem && '/' !in ext && '.' !in stem
    ensures ImageName(dir + "/" + stem + "." + ext) == stem
  {
    var tail := stem + "." + ext;
    assert dir + "/" + stem + "." + ext == dir + ['/'] + tail;
    AfterLastOf(dir, tail, '/');
    assert tail == stem + ['.'] + ext;
    BeforeFirstOf(stem, ext, '.');
  }

  /** `hash(image_name) % 2 ** 32` (Python's modulo: never negative). */
  const SeedRange: int := 0x1_0000_0000

  /** `rng.integers(2, size=n).astype(bool)` from a fresh generator. */
  function Payload(src: Stream, n: nat): (r: seq<bool>)
    ensures |r| == n
  {
    seq(n, (i: int) requires 0 <= i < n => Draws(src, 0, 2, n)[i] != 0)
  }

  /** The encode record's format: the guessed MIME type, or "image/unknown". */
  function Format(guess: Option<string>): (r: string)
    ensures guess.Some? ==> r == guess.value
    ensures guess.None? ==> r == "image/unknown"
  {
    match guess
    case Some(t) => t
    case None => "image/unknown"
  }

  // ---------------------------------------------------------------------
  // The decode trials

  /** What every trial of one image shares. */
  datatype Trials = Trials(world: World, wrapper: Wrapper, name: string, payload: seq<bool>)

  /** The edits of an evaluation, as evaluate.py asks for them: with the
      default seed, whatever the image. */
  function Suite(evaluation: R.ImageEvaluation): (r: seq<EditRequest>)
    ensures R.AllBuild(r)
    ensures forall i :: 0 <= i < |r| ==> r[i].seed == 0
  {
    R.FullSuite(0, Base);
    R.BasicSuite(0);
    R.ImageEdits(Some(evaluation)).value
  }

  /** Each edit of the list run on the image: its family and its whole
      generator, each edit with its own freshly seeded generator. */
  function Runs(world: World, reqs: seq<EditRequest>, image: Img): (r: seq<(Family, Gen)>)
    requires R.AllBuild(reqs)
    ensures |r| == |reqs|
    ensures forall i :: 0 <= i < |reqs| ==> r[i].0 == reqs[i].family
  {
    seq(|reqs|, (i: int) requires 0 <= i < |reqs| && R.AllBuild(reqs) =>
      var q := reqs[i];
      (q.family, EditRun(world.cv, world.seeder, q.family, world.seeder(q.seed), 0,
                         ResolveIndices(Num(q.family), q.given).value, image).0))
  }

  /** One decode trial: the variant re-encoded (as JPEG at its quality
      when 'jpeg_quality' is among its parameters, as PNG otherwise) and
      handed to the decoder; the t-th timed call. An unusable quality or an
      empty variant makes the encoder raise outside the decoder's `try`,
      which ends the evaluation. */
  function Trial(tr: Trials, family: Family, v: Variant, t: nat): (r: Result<Record>)
    ensures r.Err? <==> ReencodeQuality(v.params).Err? || v.image.h * v.image.w == 0
    ensures r.Err? ==> r.error == CvError
    ensures r.Ok? ==>
      var dec := tr.wrapper.decode(BgrToBytes(tr.world.cv, v.image, ReencodeQuality(v.params).value).value);
      && r.value.operation == "decode" && r.value.contentFormat == "image"
      && r.value.contentId == tr.name && r.value.dims == v.image.Shape()
      && r.value.editType == ClassName(family) && r.value.editParams == v.params
      && r.value.timeMs == tr.world.elapsed(t)
      && (r.value.error <==> dec.Err?)
      && (r.value.detected <==> dec.Ok? && dec.value.Some?)
      && (r.value.decoded <==> dec.Ok? && dec.value.Some? && dec.value.value == tr.payload)
  {
    match ReencodeQuality(v.params)
    case Err(e) => Err(e)
    case Ok(q) =>
      var rec := Blank.(operation := "decode", contentId := tr.name, contentFormat := "image",
                        dims := v.image.Shape(), editType := ClassName(family), editParams := v.params,
                        timeMs := tr.world.elapsed(t));
      match BgrToBytes(tr.world.cv, v.image, q)
      case Err(e) => Err(e)
      case Ok(bytes) =>
        match tr.wrapper.decode(bytes)
        case Err(_) => Ok(rec.(error := true))
        case Ok(None) => Ok(rec)
        case Ok(Some(bits)) => Ok(rec.(detected := true, decoded := bits == tr.payload))
  }

  /** The trials of an edit's variants in turn, the first from timed call
      t on; the first exception ends them. */
  function VariantTrials(tr: Trials, family: Family, vs: seq<Variant>, t: nat): Result<seq<Record>>
    decreases |vs|
  {
    if vs == [] then Ok([])
    else match VariantTrials(tr, family, vs[..|vs| - 1], t)
      case Err(e) => Err(e)
      case Ok(rs) =>
        match Trial(tr, family, vs[|vs| - 1], t + |vs| - 1)
        case Err(e) => Err(e)
        case Ok(rec) => Ok(rs + [rec])
  }

  /** The trials of all edits' variants in turn. An exception raised by an
      edit's generator, after its variants so far have been tried, ends
      the evaluation. */
  function EditTrials(tr: Trials, runs: seq<(Family, Gen)>, t: nat): Result<seq<Record>>
    decreases |runs|
  {
    if runs == [] then Ok([])
    else match EditTrials(tr, runs[..|runs| - 1], t)
      case Err(e) => Err(e)
      case Ok(rs) =>
        var run := runs[|runs| - 1];
        match VariantTrials(tr, run.0, run.1.variants, t + |rs|)
        case Err(e) => Err(e)
        case Ok(more) => if run.1.stop.Some? then Err(run.1.stop.value) else Ok(rs + more)
  }

  /** `evaluate_image(filepath, wrapper, evaluation, encode)`: its records,
      or the exception that escapes it. A source file OpenCV cannot decode
      gives None, whose `.shape` is read at once: by the encode record, or,
      without encoding, by the record of the first variant, which IEBase
      (the suite's first edit, see `SuiteOpensWithBase`) yields unchanged.
      A watermarked image that cannot be decoded makes `assess_image` read
      the shape of None. */
  function Evaluation(world: World, path: string, wrapper: Wrapper, evaluation: R.ImageEvaluation, encode: bool): Result<seq<Record>> {
    var name := ImageName(path);
    var bytes := world.read(path);
    var payload := Payload(world.seeder(world.hash(name) % SeedRange), wrapper.payloadSize);
    var tr := Trials(world, wrapper, name, payload);
    match BytesToBgr(world.cv, bytes)
    case None => Err(AttributeError)
    case Some(image) =>
      if !encode then EditTrials(tr, Runs(world, Suite(evaluation), image), 0)
      else
        var rec := Blank.(operation := "encode", contentId := name, contentFormat := Format(world.guessType(path)),
                          dims := image.Shape(), timeMs := world.elapsed(0));
        match wrapper.encode(bytes, payload)
        case Err(_) => Ok([rec.(error := true)])
        case Ok(encoded) =>
          match BytesToBgr(world.cv, encoded)
          case None => Err(AttributeError)
          case Some(marked) =>
            var a := world.assess(image, marked);
            match EditTrials(tr, Runs(world, Suite(evaluation), marked), 1)
            case Err(e) => Err(e)
            case Ok(rs) => Ok([rec.(psnr := a.psnr, ssim := a.ssim, tpcp := a.tpcp)] + rs)
  }

  // ---------------------------------------------------------------------
  // Properties

  /** An edit's variants, each with the edit's family. */
  function Tagged(family: Family, vs: seq<Variant>): (r: seq<(Family, Variant)>)
    ensures |r| == |vs| && forall i :: 0 <= i < |vs| ==> r[i] == (family, vs[i])
  {
    seq(|vs|, (i: int) requires 0 <= i < |vs| => (family, vs[i]))
  }

  /** The variants of the runs in generation order, each with its family. */
  function Flatten(runs: seq<(Family, Gen)>): (r: seq<(Family, Variant)>)
    decreases |runs|
  {
    if runs == [] then []
    else
      var run := runs[|runs| - 1];
      Flatten(runs[..|runs| - 1]) + Tagged(run.0, run.1.variants)
  }

  /** rs are the trials of the variants vs, the first at timed call t:
      one record per variant, in order, and nothing else; so a decoder
      exception marks only its own record. */
  predicate TrialsOf(tr: Trials, vs: seq<(Family, Variant)>, t: nat, rs: seq<Record>) {
    && |rs| == |vs|
    && forall i :: 0 <= i < |vs| ==> Trial(tr, vs[i].0, vs[i].1, t + i) == Ok(rs[i])
  }

  /** Trials of consecutive stretches of variants join up. */
  lemma TrialsOfAppend(tr: Trials, vs: seq<(Family, Variant)>, ws: seq<(Family, Variant)>, t: nat, rs: seq<Record>, qs: seq<Record>)
    requires TrialsOf(tr, vs, t, rs) && TrialsOf(tr, ws, t + |vs|, qs)
    ensures TrialsOf(tr, vs + ws, t, rs + qs)
  {
    hide Trial;
    forall i | 0 <= i < |vs| + |ws|
      ensures Trial(tr, (vs + ws)[i].0, (vs + ws)[i].1, t + i) == Ok((rs + qs)[i])
    {
      if i >= |vs| {
        assert Trial(tr, ws[i - |vs|].0, ws[i - |vs|].1, t + |vs| + (i - |vs|)) == Ok(qs[i - |vs|]);
      }
    }
  }

  /** An edit's trials: one record per variant, in order. */
  lemma {:induction false} VariantTrialsPerVariant(tr: Trials, family: Family, vs: seq<Variant>, t: nat)
    requires VariantTrials(tr, family, vs, t).Ok?
    ensures TrialsOf(tr, Tagged(family, vs), t, VariantTrials(tr, family, vs, t).value)
    decreases |vs|
  {
    hide Trial;
    if vs != [] {
      var front := vs[..|vs| - 1];
      VariantTrialsPerVariant(tr, family, front, t);
      var last := VariantTrials(tr, family, vs, t).value[|vs| - 1];
      assert Tagged(family, vs) == Tagged(family, front) + [(family, vs[|vs| - 1])];
      TrialsOfAppend(tr, Tagged(family, front), [(family, vs[|vs| - 1])], t, VariantTrials(tr, family, front, t).value, [last]);
    }
  }

  /** Across all edits: one record per generated variant, in generation
      order, and no edit's generator raised. */
  lemma {:induction false} EditTrialsPerVariant(tr: Trials, runs: seq<(Family, Gen)>, t: nat)
    requires EditTrials(tr, runs, t).Ok?
    ensures TrialsOf(tr, Flatten(runs), t, EditTrials(tr, runs, t).value)
    ensures forall j :: 0 <= j < |runs| ==> runs[j].1.stop.None?
    decreases |runs|
  {
    hide Trial, VariantTrials, Tagged;
    if runs != [] {
      var front := runs[..|runs| - 1];
      var run := runs[|runs| - 1];
      EditTrialsPerVariant(tr, front, t);
      var rs0 := EditTrials(tr, front, t).value;
      VariantTrialsPerVariant(tr, run.0, run.1.variants, t + |rs0|);
      var more := VariantTrials(tr, run.0, run.1.variants, t + |rs0|).value;
      assert EditTrials(tr, runs, t).value == rs0 + more;
      TrialsOfAppend(tr, Flatten(front), Tagged(run.0, run.1.variants), t, rs0, more);
      forall j | 0 <= j < |runs|
        ensures runs[j].1.stop.None?
      {
        if j < |runs| - 1 {
          assert runs[j] == front[j];
        }
      }
    }
  }

  /** An exception from an edit's generator escapes the evaluation. */
  lemma {:induction false} EditTrialsRaise(tr: Trials, runs: seq<(Family, Gen)>, t: nat, j: nat)
    requires j < |runs| && runs[j].1.stop.Some?
    ensures EditTrials(tr, runs, t).Err?
    decreases |runs|
  {
    if j < |runs| - 1 {
      EditTrialsRaise(tr, runs[..|runs| - 1], t, j);
    }
  }

  /** An exception among the first k variants' trials ends them all. */
  lemma {:induction false} VariantTrialsErrPrefix(tr: Trials, family: Family, vs: seq<Variant>, t: nat, k: nat)
    requires k <= |vs| && VariantTrials(tr, family, vs[..k], t).Err?
    ensures VariantTrials(tr, family, vs, t) == VariantTrials(tr, family, vs[..k], t)
    decreases |vs| - k
  {
    if k < |vs| {
      var front := vs[..|vs| - 1];
      assert front[..k] == vs[..k];
      VariantTrialsErrPrefix(tr, family, front, t, k);
    } else {
      assert vs[..k] == vs;
    }
  }

  /** An exception among the first k edits ends the evaluation. */
  lemma {:induction false} EditTrialsErrPrefix(tr: Trials, runs: seq<(Family, Gen)>, t: nat, k: nat)
    requires k <= |runs| && EditTrials(tr, runs[..k], t).Err?
    ensures EditTrials(tr, runs, t) == EditTrials(tr, runs[..k], t)
    decreases |runs| - k
  {
    if k < |runs| {
      var front := runs[..|runs| - 1];
      assert front[..k] == runs[..k];
      EditTrialsErrPrefix(tr, front, t, k);
    } else {
      assert runs[..k] == runs;
    }
  }

  /** The detection rule: a record is detected when the decoder returned
      bits, decoded when those bits are the payload; neither on error. */
  predicate FlagsConsistent(rec: Record) {
    && (rec.decoded ==> rec.detected)
    && (rec.error ==> !rec.detected && !rec.decoded)
  }

  /** A record of the image named `name` that follows the detection rule. */
  predicate RowOf(rec: Record, name: string) {
    FlagsConsistent(rec) && rec.contentId == name
  }

  lemma {:induction false} EditTrialsFlags(tr: Trials, runs: seq<(Family, Gen)>, t: nat)
    requires EditTrials(tr, runs, t).Ok?
    ensures forall rec :: rec in EditTrials(tr, runs, t).value ==> RowOf(rec, tr.name) && rec.operation == "decode"
  {
    EditTrialsPerVariant(tr, runs, t);
    var rs := EditTrials(tr, runs, t).value;
    var vs := Flatten(runs);
    forall rec | rec in rs
      ensures RowOf(rec, tr.name) && rec.operation == "decode"
    {
      var i :| 0 <= i < |rs| && rs[i] == rec;
      assert Trial(tr, vs[i].0, vs[i].1, t + i) == Ok(rec);
    }
  }

  /** Every suite opens with IEBase at its default indices, so variant 0,
      the image unchanged, is the first thing the decode loop sees. */
  lemma SuiteOpensWithBase(evaluation: R.ImageEvaluation)
    ensures |Suite(evaluation)| > 0 && Suite(evaluation)[0].family == Base
    ensures 0 in ResolveIndices(Num(Base), Suite(evaluation)[0].given).value
  {
    assert R.FullFamilies[0] == Base;
    assert Suite(evaluation)[0].given.None?;
    assert Range(Num(Base))[0] == 0;
  }

  /** A source file OpenCV cannot decode ends the evaluation with
      AttributeError, with or without encoding. */
  lemma UndecodableSourceRaises(world: World, path: string, wrapper: Wrapper, evaluation: R.ImageEvaluation, encode: bool)
    requires BytesToBgr(world.cv, world.read(path)).None?
    ensures Evaluation(world, path, wrapper, evaluation, encode) == Err(AttributeError)
  {
    hide EditRun, Runs, Suite, Trial, EditTrials, VariantTrials, Payload, Format, ImageName;
  }

  /** Watermarked bytes OpenCV cannot decode end the evaluation with
      AttributeError, before any decode trial. */
  lemma UndecodableMarkRaises(world: World, path: string, wrapper: Wrapper, evaluation: R.ImageEvaluation)
    requires BytesToBgr(world.cv, world.read(path)).Some?
    requires var name := ImageName(path);
      var encoded := wrapper.encode(world.read(path), Payload(world.seeder(world.hash(name) % SeedRange), wrapper.payloadSize));
      encoded.Ok? && BytesToBgr(world.cv, encoded.value).None?
    ensures Evaluation(world, path, wrapper, evaluation, true) == Err(AttributeError)
  {
    hide EditRun, Runs, Suite, Trial, EditTrials, VariantTrials, Payload, Format, ImageName;
  }

  /** An empty variant among an edit's variants makes its trials raise. */
  lemma {:induction false} VariantTrialsEmptyRaises(tr: Trials, family: Family, vs: seq<Variant>, t: nat, k: nat)
    requires k < |vs| && vs[k].image.h * vs[k].image.w == 0
    ensures VariantTrials(tr, family, vs, t).Err?
    decreases |vs|
  {
    hide Trial;
    if k < |vs| - 1 {
      VariantTrialsEmptyRaises(tr, family, vs[..|vs| - 1], t, k);
    } else {
      assert Trial(tr, family, vs[k], t + k).Err?;
    }
  }

  /** An empty variant from any edit makes the evaluation's trials raise:
      `cv2.imencode` refuses it outside the decoder's `try`. */
  lemma {:induction false} EditTrialsEmptyRaises(tr: Trials, runs: seq<(Family, Gen)>, t: nat, j: nat, k: nat)
    requires j < |runs| && k < |runs[j].1.variants|
    requires runs[j].1.variants[k].image.h * runs[j].1.variants[k].image.w == 0
    ensures EditTrials(tr, runs, t).Err?
    decreases |runs|
  {
    hide VariantTrials;
    var front := runs[..|runs| - 1];
    if j < |runs| - 1 {
      EditTrialsEmptyRaises(tr, front, t, j, k);
    } else if EditTrials(tr, front, t).Ok? {
      var run := runs[j];
      VariantTrialsEmptyRaises(tr, run.0, run.1.variants, t + |EditTrials(tr, front, t).value|, k);
    }
  }

  /** When encoding raises, the evaluation has one record, the failed
      encode, and no decode record; unless the source file could not be
      decoded, which raises first. */
  lemma EncodeErrorOneRecord(world: World, path: string, wrapper: Wrapper, evaluation: R.ImageEvaluation)
    requires var name := ImageName(path);
      wrapper.encode(world.read(path), Payload(world.seeder(world.hash(name) % SeedRange), wrapper.payloadSize)).Err?
    ensures BytesToBgr(world.cv, world.read(path)).None? ==>
      Evaluation(world, path, wrapper, evaluation, true) == Err(AttributeError)
    ensures var r := Evaluation(world, path, wrapper, evaluation, true);
      BytesToBgr(world.cv, world.read(path)).Some? ==>
      && r.Ok? && |r.value| == 1
      && r.value[0].operation == "encode" && r.value[0].error
      && r.value[0].contentId == ImageName(path)
  {
    hide EditRun, Runs, Suite, Trial, EditTrials, VariantTrials, Payload, Format;
  }

  /** When encoding succeeds, the encode record comes first, error-free,
      and is followed by exactly the decode trials of the variants the
      edits generate from the watermarked image, from timed call 1 on. */
  lemma EncodeThenDecode(world: World, path: string, wrapper: Wrapper, evaluation: R.ImageEvaluation)
    requires var name := ImageName(path);
      wrapper.encode(world.read(path), Payload(world.seeder(world.hash(name) % SeedRange), wrapper.payloadSize)).Ok?
    requires Evaluation(world, path, wrapper, evaluation, true).Ok?
    ensures var rs := Evaluation(world, path, wrapper, evaluation, true).value;
      var name := ImageName(path);
      var payload := Payload(world.seeder(world.hash(name) % SeedRange), wrapper.payloadSize);
      var encoded := wrapper.encode(world.read(path), payload).value;
      && BytesToBgr(world.cv, world.read(path)).Some? && BytesToBgr(world.cv, encoded).Some?
      && var vs := Flatten(Runs(world, Suite(evaluation), BytesToBgr(world.cv, encoded).value));
      && |rs| == 1 + |vs|
      && rs[0].operation == "encode" && !rs[0].error
      && rs[0].contentFormat == Format(world.guessType(path))
      && rs[0].dims == BytesToBgr(world.cv, world.read(path)).value.Shape()
      && TrialsOf(Trials(world, wrapper, name, payload), vs, 1, rs[1..])
  {
    hide EditRun, Runs, Suite, Trial, EditTrials, VariantTrials, Flatten, ImageName, Payload, Format;
    var name := ImageName(path);
    var payload := Payload(world.seeder(world.hash(name) % SeedRange), wrapper.payloadSize);
    var encoded := wrapper.encode(world.read(path), payload).value;
    var tr := Trials(world, wrapper, name, payload);
    var runs := Runs(world, Suite(evaluation), BytesToBgr(world.cv, encoded).value);
    assert Evaluation(world, path, wrapper, evaluation, true).value[1..] == EditTrials(tr, runs, 1).value;
    EditTrialsPerVariant(tr, runs, 1);
  }

  /** Without encoding there is no encode record: the source bytes' image
      is edited and decoded, from timed call 0 on. */
  lemma DecodeOnly(world: World, path: string, wrapper: Wrapper, evaluation: R.ImageEvaluation)
    requires Evaluation(world, path, wrapper, evaluation, false).Ok?
    ensures BytesToBgr(world.cv, world.read(path)).Some?
    ensures var rs := Evaluation(world, path, wrapper, evaluation, false).value;
      var name := ImageName(path);
      var payload := Payload(world.seeder(world.hash(name) % SeedRange), wrapper.payloadSize);
      var vs := Flatten(Runs(world, Suite(evaluation), BytesToBgr(world.cv, world.read(path)).value));
      && TrialsOf(Trials(world, wrapper, name, payload), vs, 0, rs)
      && forall rec :: rec in rs ==> rec.operation == "decode"
  {
    hide EditRun, Runs, Suite, Trial, EditTrials, VariantTrials, Flatten, ImageName, Payload, Format;
    var name := ImageName(path);
    var payload := Payload(world.seeder(world.hash(name) % SeedRange), wrapper.payloadSize);
    var tr := Trials(world, wrapper, name, payload);
    var runs := Runs(world, Suite(evaluation), BytesToBgr(world.cv, world.read(path)).value);
    assert Evaluation(world, path, wrapper, evaluation, false) == EditTrials(tr, runs, 0);
    hide TrialsOf;
    EditTrialsPerVariant(tr, runs, 0);
    EditTrialsFlags(tr, runs, 0);
  }

  /** Every record of an evaluation follows the detection rule
      and carries the image's name. */
  lemma EvaluationFlags(world: World, path: string, wrapper: Wrapper, evaluation: R.ImageEvaluation, encode: bool)
    requires Evaluation(world, path, wrapper, evaluation, encode).Ok?
    ensures forall rec :: rec in Evaluation(world, path, wrapper, evaluation, encode).value ==> RowOf(rec, ImageName(path))
  {
    hide EditRun, Runs, Suite, Trial, EditTrials, VariantTrials, Flatten, ImageName, Payload, Format;
    var name := ImageName(path);
    var payload := Payload(world.seeder(world.hash(name) % SeedRange), wrapper.payloadSize);
    var tr := Trials(world, wrapper, name, payload);
    var image := BytesToBgr(world.cv, world.read(path)).value;
    var rs := Evaluation(world, path, wrapper, evaluation, encode).value;
    if !encode {
      var runs := Runs(world, Suite(evaluation), image);
      assert rs == EditTrials(tr, runs, 0).value;
      EditTrialsFlags(tr, runs, 0);
      assert forall rec :: rec in rs ==> RowOf(rec, name);
    } else if wrapper.encode(world.read(path), payload).Ok? {
      var marked := BytesToBgr(world.cv, wrapper.encode(world.read(path), payload).value).value;
      var runs := Runs(world, Suite(evaluation), marked);
      assert RowOf(rs[0], name) && rs[1..] == EditTrials(tr, runs, 1).value;
      EditTrialsFlags(tr, runs, 1);
      forall rec | rec in rs
        ensures RowOf(rec, name)
      {
        if rec != rs[0] {
          assert rec in rs[1..];
        }
      }
      assert forall rec :: rec in rs ==> RowOf(rec, name);
    } else {
      assert rs == [rs[0]] && RowOf(rs[0], name);
      assert forall rec :: rec in rs ==> RowOf(rec, name);
    }
  }

  // ---------------------------------------------------------------------
  // evaluate_image as the code runs it

  /** The body of `for (edit_parameters, mod_image_bgr) in
      edit_generator:` for one variant, the t-th timed call. */
  method TryVariant(tr: Trials, family: Family, v: Variant, t: nat) returns (r: Result<Record>)
    ensures r == Trial(tr, family, v, t)
  {
    var q := ReencodeQuality(v.params);
    if q.Err? {
      return Err(q.error);
    }
    var rec := Blank.(operation := "decode", contentId := tr.name, contentFormat := "image",
                      dims := v.image.Shape(), editType := ClassName(family), editParams := v.params);
    var modBytes := BgrToBytes(tr.world.cv, v.image, q.value);
    if modBytes.Err? {
      return Err(modBytes.error);
    }
    var decoded := tr.wrapper.decode(modBytes.value);
    rec := rec.(timeMs := tr.world.elapsed(t));
    if decoded.Err? {
      rec := rec.(error := true);
    } else if decoded.value.Some? {
      rec := rec.(detected := true, decoded := decoded.value.value == tr.payload);
    }
    r := Ok(rec);
  }

  /** One more variant's trial extends the trials so far, or ends them
      with its exception. */
  lemma VariantTrialsStep(tr: Trials, family: Family, vs: seq<Variant>, t: nat, k: nat, rs: seq<Record>)
    requires k < |vs| && VariantTrials(tr, family, vs[..k], t) == Ok(rs)
    ensures var next := Trial(tr, family, vs[k], t + k);
      VariantTrials(tr, family, vs[..k + 1], t) == if next.Err? then Err(next.error) else Ok(rs + [next.value])
  {
    hide Trial;
    assert vs[..k + 1][..k] == vs[..k];
  }

  /** The loop over the variants an edit yielded, the first at timed
      call t. Each pass is one `Trial`, the function `TryVariant` is
      proved to compute. */
  method TryVariants(tr: Trials, family: Family, vs: seq<Variant>, t: nat) returns (r: Result<seq<Record>>)
    ensures r == VariantTrials(tr, family, vs, t)
  {
    assert VariantTrials(tr, family, vs[..0], t) == Ok([]);
    hide *;
    var results: seq<Record> := [];
    for k := 0 to |vs|
      invariant Ok(results) == VariantTrials(tr, family, vs[..k], t)
    {
      var rec := Trial(tr, family, vs[k], t + k);
      VariantTrialsStep(tr, family, vs, t, k, results);
      if rec.Err? {
        VariantTrialsErrPrefix(tr, family, vs, t, k + 1);
        return Err(rec.error);
      }
      results := results + [rec.value];
    }
    assert vs[..|vs|] == vs;
    r := Ok(results);
  }

  /** The head of the loop over the edits: the edit built from its
      request, with a generator of its own, and run on the image. */
  method RunEdit(world: World, req: EditRequest, image: Img) returns (family: Family, g: Gen)
    requires ResolveIndices(Num(req.family), req.given).Ok?
    ensures family == req.family
    ensures g == EditRun(world.cv, world.seeder, req.family, world.seeder(req.seed), 0,
                         ResolveIndices(Num(req.family), req.given).value, image).0
  {
    hide EditRun;
    var made := MakeEdit(req, world.seeder);
    var edit := made.value;
    family := edit.family;
    g := Generate(world.cv, world.seeder, edit, image);
  }

  /** The loop over the edits of the evaluation: each edit built, run on
      the image, and its variants tried, from timed call t on. */
  method TryEdits(tr: Trials, edits: seq<EditRequest>, image: Img, t: nat) returns (r: Result<seq<Record>>)
    requires R.AllBuild(edits)
    ensures r == EditTrials(tr, Runs(tr.world, edits, image), t)
  {
    hide EditRun, Trial, VariantTrials;
    ghost var runs := Runs(tr.world, edits, image);
    var decodes: seq<Record> := [];
    for e := 0 to |edits|
      invariant Ok(decodes) == EditTrials(tr, runs[..e], t)
    {
      ghost var prefix := runs[..e + 1];
      assert prefix[..e] == runs[..e];
      var family, g := RunEdit(tr.world, edits[e], image);
      assert prefix[e] == (family, g);
      var more := TryVariants(tr, family, g.variants, t + |decodes|);
      if more.Err? {
        EditTrialsErrPrefix(tr, runs, t, e + 1);
        return Err(more.error);
      }
      if g.stop.Some? {
        EditTrialsErrPrefix(tr, runs, t, e + 1);
        return Err(g.stop.value);
      }
      decodes := decodes + more.value;
    }
    assert runs[..|edits|] == runs;
    r := Ok(decodes);
  }

  /** `evaluate_image`: encode (unless told not to), then try every
      variant of every edit of the evaluation. */
  method EvaluateImage(world: World, path: string, wrapper: Wrapper, evaluation: R.ImageEvaluation, encode: bool)
    returns (r: Result<seq<Record>>)
    ensures r == Evaluation(world, path, wrapper, evaluation, encode)
  {
    hide EditRun, Runs, Trial, VariantTrials, EditTrials, ImageName, Format;
    var name := ImageName(path);
    var seed := world.hash(name) % SeedRange;
    var bytes := world.read(path);
    var image := BytesToBgr(world.cv, bytes);
    var rng := new Generator(world.seeder(seed));
    var bits := rng.IntegersN(2, wrapper.payloadSize);
    var payload := seq(wrapper.payloadSize, (i: int) requires 0 <= i < wrapper.payloadSize => bits.value[i] != 0);
    assert payload == Payload(world.seeder(seed), wrapper.payloadSize);
    var tr := Trials(world, wrapper, name, payload);
    var edits := Suite(evaluation);
    if image.None? {
      // the encode record, or the record of IEBase's first variant, reads `.shape` of None
      return Err(AttributeError);
    }
    if !encode {
      r := TryEdits(tr, edits, image.value, 0);
      return;
    }
    var rec := Blank.(operation := "encode", contentId := name, contentFormat := Format(world.guessType(path)),
                      dims := image.value.Shape());
    var encoded := wrapper.encode(bytes, payload);
    rec := rec.(timeMs := world.elapsed(0));
    if encoded.Err? {
      rec := rec.(error := true);
      return Ok([rec]);
    }
    var marked := BytesToBgr(world.cv, encoded.value);
    if marked.None? {
      // `assess_image` reads `.shape` of None
      return Err(AttributeError);
    }
    var a := world.assess(image.value, marked.value);
    rec := rec.(psnr := a.psnr, ssim := a.ssim, tpcp := a.tpcp);
    var decodes := TryEdits(tr, edits, marked.value, 1);
    if decodes.Err? {
      return Err(decodes.error);
    }
    r := Ok([rec] + decodes.value);
  }
}
