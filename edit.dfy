/** benchmark/image/edit.py: what every edit family shares (construction,
    index validation, the parameter dictionaries and the yielded variants)
    and the two families defined there, IEBase and IECompressJPEG. */
module Edit {
  import opened Common
  import opened Frames
  import opened Random

  /** The edit families of the catalog (the concrete ImageEdit subclasses). */
  datatype Family =
    | Base | CompressJpeg | Crop | Rescale | RotateA | RotateB
    | FilterA | FilterB | AlterA | ComposeA

  /** The class constant NUM: the number of variants a family defines. */
  function Num(f: Family): nat {
    match f
    case Base => 2
    case CompressJpeg => 11
    case Crop => 8
    case Rescale => 8
    case RotateA => 3
    case RotateB => 5
    case FilterA => 6
    case FilterB => 3
    case AlterA => 9
    case ComposeA => 6
  }

  /** `type(edit).__name__`, the `edit_type` of a decode record. */
  function ClassName(f: Family): (r: string)
    ensures r != ""
  {
    match f
    case Base => "IEBase"
    case CompressJpeg => "IECompressJPEG"
    case Crop => "IECrop"
    case Rescale => "IERescale"
    case RotateA => "IERotateA"
    case RotateB => "IERotateB"
    case FilterA => "IEFilterA"
    case FilterB => "IEFilterB"
    case AlterA => "IEAlterA"
    case ComposeA => "IEComposeA"
  }

  /** A crop's edges, `((top, bottom), (left, right))`. */
  datatype Cropping = Cropping(top: int, bottom: int, left: int, right: int)

  /** A dictionary key: a string, or the enum member `ImageEditParams.JPEG_Q`
      itself, which compares unequal to every string. */
  datatype ParamKey = Key(name: string) | JpegQMember

  /** The values edits store in their parameter dictionaries. */
  datatype ParamValue =
    | IntV(i: int)
    | RealV(r: real)
    | BoolV(b: bool)
    | StrV(s: string)
    | PairV(first: real, second: real)
    | CropV(crop: Cropping)

  type Params = map<ParamKey, ParamValue>

  /** `ImageEditParams.JPEG_Q.value`. */
  const JpegQuality: string := "jpeg_quality"

  /** One yielded `(parameters, image)` pair; `index` is the variant index
      of the family that produced it (it is not part of the yielded tuple). */
  datatype Variant = Variant(index: int, params: Params, image: Img)

  /** A generator run to exhaustion: the variants it yielded, in order, and
      the exception it raised afterwards, if any. */
  datatype Gen = Gen(variants: seq<Variant>, stop: Option<Error>)

  /** A generator that first yields v and then behaves like g. */
  function Yield(v: Variant, g: Gen): (r: Gen)
    ensures r.variants == [v] + g.variants && r.stop == g.stop
  {
    Gen([v] + g.variants, g.stop)
  }

  /** The variant indices of a sequence of variants, in order. */
  function IndicesOf(vs: seq<Variant>): (r: seq<int>)
    ensures |r| == |vs|
    ensures forall k :: 0 <= k < |r| ==> r[k] == vs[k].index
  {
    if vs == [] then [] else [vs[0].index] + IndicesOf(vs[1..])
  }

  /** The variant indices a generator yielded, in order. */
  function IndexList(g: Gen): (r: seq<int>)
    ensures |r| == |g.variants|
    ensures forall k :: 0 <= k < |r| ==> r[k] == g.variants[k].index
  {
    IndicesOf(g.variants)
  }

  /** The variants come in strictly ascending index order. */
  predicate Ascending(vs: seq<Variant>) {
    forall a, b :: 0 <= a < b < |vs| ==> vs[a].index < vs[b].index
  }

  /** A generator that runs g1 and then, unless g1 raised, g2. */
  function Then(g1: Gen, g2: Gen): (r: Gen)
    ensures g1.stop.None? ==> r.variants == g1.variants + g2.variants && r.stop == g2.stop
    ensures g1.stop.Some? ==> r == g1
  {
    if g1.stop.Some? then g1 else Gen(g1.variants + g2.variants, g2.stop)
  }

  /** One guarded yield, `if cond: yield v`, where computing v may raise. */
  function When(cond: bool, v: Result<Variant>): (r: Gen)
    ensures !cond ==> r == Gen([], None)
    ensures cond && v.Ok? ==> r == Gen([v.value], None)
    ensures cond && v.Err? ==> r == Gen([], Some(v.error))
  {
    if !cond then Gen([], None)
    else match v
      case Ok(x) => Gen([x], None)
      case Err(e) => Gen([], Some(e))
  }

  /** `next(generator)`: the first variant, or the exception raised before
      one was yielded (StopIteration when the generator simply ends). */
  function Next(g: Gen): (r: Result<Variant>)
    ensures r.Ok? <==> |g.variants| > 0
    ensures r.Ok? ==> r.value == g.variants[0]
    ensures r.Err? && g.stop.None? ==> r.error == StopIteration
    ensures r.Err? && g.stop.Some? ==> r.error == g.stop.value
  {
    if |g.variants| > 0 then Ok(g.variants[0])
    else if g.stop.Some? then Err(g.stop.value)
    else Err(StopIteration)
  }

  /** One iteration of a generator's loop: skipped (None), a yielded
      variant, or a raise. */
  type Step = Option<Result<Variant>>

  predicate Yields(s: Step) {
    s.Some? && s.value.Ok?
  }

  predicate Raises(s: Step) {
    s.Some? && s.value.Err?
  }

  /** `for j in range(i, len(steps)): if j in indices: <step j>`: a generator
      that yields the requested steps' variants in order and stops at the
      first requested step that raises. */
  function Collect(steps: seq<Step>, indices: seq<int>, i: nat): (g: Gen)
    requires i <= |steps|
    decreases |steps| - i
  {
    if i == |steps| then Gen([], None)
    else
      var rest := Collect(steps, indices, i + 1);
      if i !in indices then rest
      else match steps[i]
        case None => rest
        case Some(Err(e)) => Gen([], Some(e))
        case Some(Ok(v)) => Yield(v, rest)
  }

  /** Each yielded step carries its own position as index. */
  predicate Indexed(steps: seq<Step>) {
    forall i :: 0 <= i < |steps| && Yields(steps[i]) ==> steps[i].value.value.index == i
  }

  /** Each variant of Collect is the variant of a requested step, at the
      position its index names. */
  lemma {:induction false} CollectAt(steps: seq<Step>, indices: seq<int>, i: nat, k: nat)
    requires Indexed(steps) && i <= |steps| && k < |Collect(steps, indices, i).variants|
    ensures var v := Collect(steps, indices, i).variants[k];
      i <= v.index < |steps| && v.index in indices && steps[v.index] == Some(Ok(v))
    decreases |steps| - i
  {
    if i < |steps| {
      if i !in indices || steps[i].None? {
        CollectAt(steps, indices, i + 1, k);
      } else if k > 0 {
        CollectAt(steps, indices, i + 1, k - 1);
      }
    }
  }

  /** Collect yields in strictly ascending index order. */
  lemma {:induction false} CollectAscending(steps: seq<Step>, indices: seq<int>, i: nat)
    requires Indexed(steps) && i <= |steps|
    ensures Ascending(Collect(steps, indices, i).variants)
    decreases |steps| - i
  {
    if i < |steps| {
      CollectAscending(steps, indices, i + 1);
      var rest := Collect(steps, indices, i + 1);
      if i in indices && Yields(steps[i]) {
        assert steps[i].value.value.index == i;
      }
      forall b | 0 <= b < |rest.variants|
        ensures i < rest.variants[b].index
      {
        CollectAt(steps, indices, i + 1, b);
      }
    }
  }

  /** Index x is yielded exactly when it is requested, its step yields, and
      no requested step before it raises. */
  lemma {:induction false} CollectMember(steps: seq<Step>, indices: seq<int>, i: nat, x: int)
    requires Indexed(steps) && i <= |steps|
    ensures x in IndexList(Collect(steps, indices, i)) <==>
      && i <= x < |steps| && x in indices && Yields(steps[x])
      && forall j :: i <= j < x && j in indices ==> !Raises(steps[j])
    decreases |steps| - i
  {
    if i < |steps| {
      CollectMember(steps, indices, i + 1, x);
      if i in indices && Yields(steps[i]) {
        IndicesOfCons(steps[i].value.value, Collect(steps, indices, i + 1).variants);
      }
    }
  }

  /** Collect finishes without raising exactly when no requested step
      raises, and otherwise raises the error of a requested step. */
  lemma {:induction false} CollectStop(steps: seq<Step>, indices: seq<int>, i: nat)
    requires i <= |steps|
    ensures var g := Collect(steps, indices, i);
      && (g.stop.None? <==> forall j :: i <= j < |steps| && j in indices ==> !Raises(steps[j]))
      && (g.stop.Some? ==> exists j :: i <= j < |steps| && j in indices && steps[j] == Some(Err(g.stop.value)))
    decreases |steps| - i
  {
    if i < |steps| {
      CollectStop(steps, indices, i + 1);
    }
  }

  /** A generator that has yielded vs and goes on with the steps from i
      behaves, as a whole, like Collect from the start. */
  predicate Resumes(steps: seq<Step>, indices: seq<int>, vs: seq<Variant>, i: nat)
    requires i <= |steps|
  {
    Collect(steps, indices, 0) == Then(Gen(vs, None), Collect(steps, indices, i))
  }

  lemma ResumeStart(steps: seq<Step>, indices: seq<int>)
    ensures Resumes(steps, indices, [], 0)
  {
    assert [] + Collect(steps, indices, 0).variants == Collect(steps, indices, 0).variants;
  }

  /** A step that is not requested, or that does nothing, is passed over. */
  lemma ResumeSkip(steps: seq<Step>, indices: seq<int>, vs: seq<Variant>, i: nat)
    requires i < |steps| && Resumes(steps, indices, vs, i)
    requires i !in indices || steps[i].None?
    ensures Resumes(steps, indices, vs, i + 1)
  {
  }

  /** A requested step that yields adds its variant to what was yielded. */
  lemma ResumeYield(steps: seq<Step>, indices: seq<int>, vs: seq<Variant>, i: nat)
    requires i < |steps| && Resumes(steps, indices, vs, i)
    requires i in indices && Yields(steps[i])
    ensures Resumes(steps, indices, vs + [steps[i].value.value], i + 1)
  {
    var rest := Collect(steps, indices, i + 1);
    assert vs + ([steps[i].value.value] + rest.variants) == (vs + [steps[i].value.value]) + rest.variants;
  }

  /** A requested step that raises ends the generator after what was yielded. */
  lemma ResumeRaise(steps: seq<Step>, indices: seq<int>, vs: seq<Variant>, i: nat)
    requires i < |steps| && Resumes(steps, indices, vs, i)
    requires i in indices && Raises(steps[i])
    ensures Collect(steps, indices, 0) == Gen(vs, Some(steps[i].value.error))
  {
    assert vs + [] == vs;
  }

  /** Past the last step, the generator is what was yielded. */
  lemma ResumeEnd(steps: seq<Step>, indices: seq<int>, vs: seq<Variant>)
    requires Resumes(steps, indices, vs, |steps|)
    ensures Collect(steps, indices, 0) == Gen(vs, None)
  {
    assert vs + [] == vs;
  }

  /** The indices in [lo, hi) that occur in `indices`, ascending: the yield
      order of the families that test `if k in self.indices` in turn. */
  function Requested(indices: seq<int>, lo: nat, hi: nat): seq<int>
    decreases hi - lo
  {
    if hi <= lo then [] else (if lo in indices then [lo] else []) + Requested(indices, lo + 1, hi)
  }

  /** x is yielded exactly when it is a candidate and was requested. */
  lemma {:induction false} RequestedMember(indices: seq<int>, lo: nat, hi: nat, x: int)
    ensures x in Requested(indices, lo, hi) <==> lo <= x < hi && x in indices
    decreases hi - lo
  {
    if lo < hi {
      RequestedMember(indices, lo + 1, hi, x);
    }
  }

  /** The candidates come out in strictly ascending order, each in range. */
  lemma {:induction false} RequestedAscending(indices: seq<int>, lo: nat, hi: nat)
    ensures forall k :: 0 <= k < |Requested(indices, lo, hi)| ==>
      lo <= Requested(indices, lo, hi)[k] < hi && Requested(indices, lo, hi)[k] in indices
    ensures forall a, b :: 0 <= a < b < |Requested(indices, lo, hi)| ==>
      Requested(indices, lo, hi)[a] < Requested(indices, lo, hi)[b]
    decreases hi - lo
  {
    if lo < hi {
      RequestedAscending(indices, lo + 1, hi);
    }
  }

  /** `ImageEdit.__init__`: missing indices default to `range(NUM)`;
      otherwise construction asserts that every index is below NUM. */
  function ResolveIndices(num: nat, given: Option<seq<int>>): (r: Result<seq<int>>)
    ensures given.None? ==> r == Ok(Range(num))
    ensures given.Some? ==> (r.Ok? <==> forall k :: 0 <= k < |given.value| ==> given.value[k] < num)
    ensures given.Some? && r.Ok? ==> r.value == given.value
    ensures r.Err? ==> r.error == AssertionError
    ensures r.Ok? ==> forall k :: 0 <= k < |r.value| ==> r.value[k] < num
  {
    match given
    case None => Ok(Range(num))
    case Some(ix) =>
      if forall k :: 0 <= k < |ix| ==> ix[k] < num then Ok(ix) else Err(AssertionError)
  }

  /** The check bounds indices only from above: a negative index passes. */
  lemma NegativeIndexAccepted(f: Family, i: int)
    requires i < 0
    ensures ResolveIndices(Num(f), Some([i])) == Ok([i])
  {
  }

  /** How a catalog list asks for an edit: `Family(random_seed, indices)`. */
  datatype EditRequest = EditRequest(family: Family, seed: int, given: Option<seq<int>>)

  /** A constructed edit: its own generator seeded from `random_seed`, and
      the validated index list. */
  class ImageEdit {
    const family: Family
    const indices: seq<int>
    const rng: Generator

    constructor (family: Family, seeder: Seeder, seed: int, indices: seq<int>)
      requires forall k :: 0 <= k < |indices| ==> indices[k] < Num(family)
      ensures this.family == family && this.indices == indices
      ensures fresh(rng) && rng.source == seeder(seed) && rng.cursor == 0
    {
      this.family := family;
      this.indices := indices;
      rng := new Generator(seeder(seed));
    }
  }

  /** `Family(random_seed, indices)`, raising AssertionError on an index at
      or above NUM. */
  method MakeEdit(req: EditRequest, seeder: Seeder) returns (r: Result<ImageEdit>)
    ensures r.Ok? <==> ResolveIndices(Num(req.family), req.given).Ok?
    ensures r.Err? ==> r.error == AssertionError
    ensures r.Ok? ==> fresh(r.value) && fresh(r.value.rng)
    ensures r.Ok? ==> r.value.family == req.family
    ensures r.Ok? ==> r.value.indices == ResolveIndices(Num(req.family), req.given).value
    ensures r.Ok? ==> r.value.rng.source == seeder(req.seed) && r.value.rng.cursor == 0
  {
    var ix := ResolveIndices(Num(req.family), req.given);
    if ix.Err? {
      r := Err(ix.error);
    } else {
      var e := new ImageEdit(req.family, seeder, req.seed, ix.value);
      r := Ok(e);
    }
  }

  /** The executor's re-encoding rule (benchmark/evaluate.py:130-133): the
      JPEG quality to use when the string key 'jpeg_quality' is present,
      and 0 (PNG) otherwise. A non-integer quality makes OpenCV fail. */
  function ReencodeQuality(params: Params): (r: Result<int>)
    ensures Key(JpegQuality) !in params ==> r == Ok(0)
    ensures Key(JpegQuality) in params && params[Key(JpegQuality)].IntV? ==>
      r == Ok(params[Key(JpegQuality)].i)
    ensures r.Err? <==> Key(JpegQuality) in params && !params[Key(JpegQuality)].IntV?
  {
    if Key(JpegQuality) !in params then Ok(0)
    else match params[Key(JpegQuality)]
      case IntV(q) => Ok(q)
      case _ => Err(CvError)
  }

  // ---------------------------------------------------------------- IEBase

  /** The candidates whose index was requested, in candidate order: the
      families that test `if k in self.indices` for each k in turn. */
  function Select(indices: seq<int>, vs: seq<Variant>): (r: seq<Variant>)
    ensures |r| <= |vs|
  {
    if vs == [] then []
    else if vs[0].index in indices then [vs[0]] + Select(indices, vs[1..])
    else Select(indices, vs[1..])
  }

  /** Candidates numbered lo, lo+1, ... are selected exactly in the order
      of the requested indices. */
  lemma {:induction false} SelectRequested(indices: seq<int>, vs: seq<Variant>, lo: nat)
    requires forall k :: 0 <= k < |vs| ==> vs[k].index == lo + k
    ensures IndicesOf(Select(indices, vs)) == Requested(indices, lo, lo + |vs|)
    decreases |vs|
  {
    if vs != [] {
      var rest := Select(indices, vs[1..]);
      SelectRequested(indices, vs[1..], lo + 1);
      assert IndicesOf(rest) == Requested(indices, lo + 1, lo + |vs|);
      if vs[0].index in indices {
        IndicesOfCons(vs[0], rest);
      }
    }
  }

  /** A selected variant is the candidate its index names. */
  lemma {:induction false} SelectAt(indices: seq<int>, vs: seq<Variant>, lo: nat)
    requires forall k :: 0 <= k < |vs| ==> vs[k].index == lo + k
    ensures forall k :: 0 <= k < |Select(indices, vs)| ==>
      lo <= Select(indices, vs)[k].index < lo + |vs| && Select(indices, vs)[k] == vs[Select(indices, vs)[k].index - lo]
    decreases |vs|
  {
    if vs != [] {
      SelectAt(indices, vs[1..], lo + 1);
    }
  }

  lemma IndicesOfCons(v: Variant, rest: seq<Variant>)
    ensures IndicesOf([v] + rest) == [v.index] + IndicesOf(rest)
  {
    assert ([v] + rest)[1..] == rest;
  }

  /** IEBase.generate as written: index 1 keys its quality with the enum
      member ImageEditParams.JPEG_Q rather than with its string value. */
  function BaseGenerateAsWritten(indices: seq<int>, image: Img): (g: Gen)
    ensures g.stop.None? && IndexList(g) == Requested(indices, 0, 2)
    ensures forall k :: 0 <= k < |g.variants| ==> g.variants[k].image == image
    ensures forall k :: 0 <= k < |g.variants| && g.variants[k].index == 1 ==>
      g.variants[k].params == map[JpegQMember := IntV(95)]
  {
    var vs := [Variant(0, map[], image), Variant(1, map[JpegQMember := IntV(95)], image)];
    SelectRequested(indices, vs, 0);
    SelectAt(indices, vs, 0);
    Gen(Select(indices, vs), None)
  }

  /** With the enum-member key, the executor does not see a JPEG quality and
      re-encodes IEBase's "JPEG" variant losslessly, like variant 0. */
  lemma BaseJpegVariantReencodedAsPng(image: Img)
    ensures |BaseGenerateAsWritten([0, 1], image).variants| == 2
    ensures ReencodeQuality(BaseGenerateAsWritten([0, 1], image).variants[1].params) == Ok(0)
    ensures ReencodeQuality(BaseGenerateAsWritten([0, 1], image).variants[0].params) == Ok(0)
  {
    var g := BaseGenerateAsWritten([0, 1], image);
    assert Requested([0, 1], 0, 2) == [0, 1] by {
      assert Requested([0, 1], 2, 2) == [];
    }
    assert g.variants[1].index == 1;
    assert Key(JpegQuality) != JpegQMember;
  }

  /** IEBase.generate with the quality keyed by the string 'jpeg_quality', as
      IECompressJPEG does: the image passes through, variant 0 has no
      parameters and variant 1 is re-encoded as JPEG at quality 95. */
  function BaseGenerate(indices: seq<int>, image: Img): (g: Gen)
    ensures g.stop.None? && IndexList(g) == Requested(indices, 0, 2)
    ensures forall k :: 0 <= k < |g.variants| ==> g.variants[k].image == image
    ensures forall k :: 0 <= k < |g.variants| && g.variants[k].index == 0 ==>
      g.variants[k].params == map[] && ReencodeQuality(g.variants[k].params) == Ok(0)
    ensures forall k :: 0 <= k < |g.variants| && g.variants[k].index == 1 ==>
      ReencodeQuality(g.variants[k].params) == Ok(95)
  {
    var vs := [Variant(0, map[], image), Variant(1, JpegParams(95), image)];
    SelectRequested(indices, vs, 0);
    SelectAt(indices, vs, 0);
    Gen(Select(indices, vs), None)
  }

  // -------------------------------------------------------- IECompressJPEG

  /** IECompressJPEG.JPEG_QUALITY_LEVELS. */
  const JpegQualityLevels: seq<int> := [99, 95, 90, 80, 70, 60, 50, 40, 30, 20, 10]

  /** The table has NUM entries, strictly decreasing from 99 to 10. */
  lemma JpegQualityTable()
    ensures |JpegQualityLevels| == Num(CompressJpeg) == 11
    ensures JpegQualityLevels[0] == 99 && JpegQualityLevels[10] == 10
    ensures forall a, b :: 0 <= a < b < 11 ==> JpegQualityLevels[a] > JpegQualityLevels[b]
  {
  }

  /** The parameters of a JPEG re-encode at quality q. */
  function JpegParams(q: int): (p: Params)
    ensures ReencodeQuality(p) == Ok(q)
  {
    map[Key(JpegQuality) := IntV(q)]
  }

  /** `for ind in self.indices: yield make(ind, table[ind])`: one variant
      per requested index, in list order; an index outside the table (below
      -|table| or at least |table|) raises IndexError. */
  function Lookup<T>(table: seq<T>, indices: seq<int>, make: (int, T) -> Variant): (g: Gen)
    ensures |g.variants| <= |indices|
    ensures g.stop.None? <==> |g.variants| == |indices|
    ensures g.stop.Some? ==> g.stop == Some(IndexError) && PyIndex(table, indices[|g.variants|]).None?
    ensures forall k :: 0 <= k < |g.variants| ==>
      && PyIndex(table, indices[k]).Some?
      && g.variants[k] == make(indices[k], PyIndex(table, indices[k]).value)
    decreases |indices|
  {
    if indices == [] then Gen([], None)
    else match PyIndex(table, indices[0])
      case None => Gen([], Some(IndexError))
      case Some(x) => Yield(make(indices[0], x), Lookup(table, indices[1..], make))
  }

  /** IECompressJPEG.generate: one variant per entry of `indices`, in list
      order, at quality JPEG_QUALITY_LEVELS[ind] (a negative index counts
      from the end, one below -11 raises IndexError), pixels unchanged. */
  function CompressJpegGenerate(indices: seq<int>, image: Img): (g: Gen)
    ensures |g.variants| <= |indices|
    ensures g.stop.None? <==> |g.variants| == |indices|
    ensures g.stop.Some? ==> g.stop == Some(IndexError) && PyIndex(JpegQualityLevels, indices[|g.variants|]).None?
    ensures forall k :: 0 <= k < |g.variants| ==>
      && PyIndex(JpegQualityLevels, indices[k]).Some?
      && g.variants[k] == Variant(indices[k], JpegParams(PyIndex(JpegQualityLevels, indices[k]).value), image)
  {
    Lookup(JpegQualityLevels, indices, (i, q) => Variant(i, JpegParams(q), image))
  }

  /** Indices that passed construction and are not negative all yield. */
  lemma CompressJpegFollowsIndices(indices: seq<int>, image: Img)
    requires forall k :: 0 <= k < |indices| ==> 0 <= indices[k] < Num(CompressJpeg)
    ensures CompressJpegGenerate(indices, image).stop.None?
    ensures IndexList(CompressJpegGenerate(indices, image)) == indices
    ensures forall k :: 0 <= k < |indices| ==>
      ReencodeQuality(CompressJpegGenerate(indices, image).variants[k].params) == Ok(JpegQualityLevels[indices[k]])
  {
    var g := CompressJpegGenerate(indices, image);
    if g.stop.Some? {
      assert false;
    }
  }
}
