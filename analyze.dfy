/** analysis/analyze.py: `ImageAnalysis`, the summary statistics of the
    benchmark's rows. The rows are pruned to successful image rows, then
    summarised per content item, per edit and per (watermark, dataset,
    evaluation) triple. Numeric columns are exact reals. */
module Analyze {
  import opened Common
  import opened Evaluate
  import B = Bench

  /** (watermark, dataset, evaluation): the triple the summaries are per. */
  datatype Triple = Triple(watermark: string, dataset: string, evaluation: string)

  function TripleOf(rec: Record): Triple {
    Triple(rec.watermark, rec.dataset, rec.evaluation)
  }

  // ---------------------------------------------------------------------
  // Input and pruning

  /** The analysis input: the name pattern of results files, or rows. */
  datatype Input = Named(name: string) | Frame(rows: seq<Record>)

  /** The results directory as the analysis sees it. */
  datatype Store = Store(
    cwd: string,                      // os.getcwd()
    glob: string -> seq<string>,      // glob.glob(pattern), in its order
    readJson: string -> seq<Record>)  // pd.read_json(file)

  /** `pd.concat` of the files' rows, in file order. */
  function Concat(store: Store, files: seq<string>): (r: seq<Record>)
    ensures files == [] ==> r == []
    decreases |files|
  {
    if files == [] then []
    else Concat(store, files[..|files| - 1]) + store.readJson(files[|files| - 1])
  }

  /** The rows `__init__` starts from: a DataFrame as given, or the rows of
      every `results/{name}.json` file; `pd.concat([])` raises ValueError. */
  function Load(store: Store, input: Input): (r: Result<seq<Record>>)
    ensures input.Frame? ==> r == Ok(input.rows)
    ensures input.Named? ==>
      var files := store.glob(store.cwd + "/results/" + input.name + ".json");
      (r.Err? <==> files == []) && (r.Err? ==> r.error == ValueError)
  {
    match input
    case Frame(rows) => Ok(rows)
    case Named(name) =>
      var files := store.glob(store.cwd + "/results/" + name + ".json");
      if files == [] then Err(ValueError) else Ok(Concat(store, files))
  }

  /** A row that survives pruning: an image dataset, and no error. */
  predicate Kept(rec: Record) {
    Contains(rec.dataset, "IMG") && !rec.error
  }

  /** `df.loc[df['dataset'].apply(lambda x: 'IMG' in x)]` then
      `df[~df['error']]`: the kept rows, in order. */
  function Prune(rows: seq<Record>): (r: seq<Record>)
    ensures |r| <= |rows|
    ensures forall rec :: rec in r <==> rec in rows && Kept(rec)
    ensures forall rec :: multiset(r)[rec] == if Kept(rec) then multiset(rows)[rec] else 0
    decreases |rows|
  {
    if rows == [] then []
    else
      var front := rows[..|rows| - 1];
      var last := rows[|rows| - 1];
      assert rows == front + [last];
      Prune(front) + (if Kept(last) then [last] else [])
  }

  lemma AppendAssoc<T>(x: seq<T>, y: seq<T>, z: seq<T>)
    ensures (x + y) + z == x + (y + z)
  {
  }

  /** Pruning keeps the order of the rows: it distributes over
      concatenation, so each row stays in place relative to the others. */
  lemma {:induction false} PruneAppend(a: seq<Record>, b: seq<Record>)
    ensures Prune(a + b) == Prune(a) + Prune(b)
    decreases |b|
  {
    if b == [] {
      assert a + b == a;
    } else {
      hide Kept;
      var front, x := b[..|b| - 1], b[|b| - 1];
      assert (a + b)[..|a + b| - 1] == a + front && (a + b)[|a + b| - 1] == x;
      PruneAppend(a, front);
      var tail := if Kept(x) then [x] else [];
      assert Prune(a + b) == Prune(a + front) + tail;
      assert Prune(b) == Prune(front) + tail;
      AppendAssoc(Prune(a), Prune(front), tail);
    }
  }

  /** A row of the subset: an edited row of the preset. */
  predicate InEvaluation(rec: Record, evaluation: B.BenchmarkEvaluation) {
    rec.editType != "" && rec.evaluation == evaluation.Value()
  }

  /** `get_evaluation_subset(df, evaluation)`: the edited rows of one
      preset, in order. */
  function EvaluationSubset(rows: seq<Record>, evaluation: B.BenchmarkEvaluation): (r: seq<Record>)
    ensures forall rec :: rec in r <==> rec in rows && InEvaluation(rec, evaluation)
    ensures forall rec :: multiset(r)[rec] == if InEvaluation(rec, evaluation) then multiset(rows)[rec] else 0
    decreases |rows|
  {
    if rows == [] then []
    else
      var front := rows[..|rows| - 1];
      var last := rows[|rows| - 1];
      assert rows == front + [last];
      EvaluationSubset(front, evaluation) + (if InEvaluation(last, evaluation) then [last] else [])
  }

  /** The subset keeps the order of the rows. */
  lemma {:induction false} EvaluationSubsetAppend(a: seq<Record>, b: seq<Record>, evaluation: B.BenchmarkEvaluation)
    ensures EvaluationSubset(a + b, evaluation) == EvaluationSubset(a, evaluation) + EvaluationSubset(b, evaluation)
    decreases |b|
  {
    if b == [] {
      assert a + b == a;
    } else {
      hide InEvaluation;
      var front, x := b[..|b| - 1], b[|b| - 1];
      assert (a + b)[..|a + b| - 1] == a + front && (a + b)[|a + b| - 1] == x;
      EvaluationSubsetAppend(a, front, evaluation);
      var tail := if InEvaluation(x, evaluation) then [x] else [];
      assert EvaluationSubset(a + b, evaluation) == EvaluationSubset(a + front, evaluation) + tail;
      assert EvaluationSubset(b, evaluation) == EvaluationSubset(front, evaluation) + tail;
      AppendAssoc(EvaluationSubset(a, evaluation), EvaluationSubset(front, evaluation), tail);
    }
  }

  // ---------------------------------------------------------------------
  // content_size

  /** n is the integer nearest to √hw: (2n − 1)² ≤ 4hw < (2n + 1)². */
  predicate Nearest(n: nat, hw: nat) {
    4 * hw < (2 * n + 1) * (2 * n + 1) && (n > 0 ==> (2 * n - 1) * (2 * n - 1) <= 4 * hw)
  }

  /** `get_size(shape)`: `round(sqrt(h * w))` of the first two dimensions,
      0 for a shape with fewer than two. (√hw is never halfway between two
      integers, so the rounding mode does not matter.) */
  function ContentSize(dims: seq<nat>): (n: nat)
    ensures |dims| < 2 ==> n == 0
    ensures |dims| >= 2 ==> Nearest(n, dims[0] * dims[1])
  {
    if |dims| < 2 then 0
    else
      var hw := dims[0] * dims[1];
      var m := FloorSqrt(4 * hw);
      var n := (m + 1) / 2;
      if m == 2 * n then
        if n > 0 then SquareMono(2 * n - 1, m); n else n
      else
        SquareMono(m + 1, 2 * n + 1);
        n
  }

  /** There is only one nearest integer, so content_size is determined by
      its characterisation. */
  lemma NearestUnique(a: nat, b: nat, hw: nat)
    requires Nearest(a, hw) && Nearest(b, hw)
    ensures a == b
  {
    if a < b {
      SquareMono(2 * a + 1, 2 * b - 1);
    } else if b < a {
      SquareMono(2 * b + 1, 2 * a - 1);
    }
  }

  // ---------------------------------------------------------------------
  // summarize_per

  /** The decode columns summed per content item: `total` counts rows. */
  datatype DecodeTotals = DecodeTotals(detected: nat, decoded: nat, total: nat)

  /** A row of `df_per`: an encode row, its content size, and the sums of
      the item's decode rows (None when it has none: the left merge). */
  datatype PerRow = PerRow(
    triple: Triple, contentId: string, dims: seq<nat>, timeMs: nat,
    psnr: real, ssim: real, pcpa: NonNeg, size: nat, decodes: Option<DecodeTotals>)

  /** The item's decode rows, summed. */
  function DecodeCounts(rows: seq<Record>, t: Triple, id: string): (d: DecodeTotals)
    decreases |rows|
  {
    if rows == [] then DecodeTotals(0, 0, 0)
    else
      var d := DecodeCounts(rows[..|rows| - 1], t, id);
      var rec := rows[|rows| - 1];
      if rec.operation == "decode" && TripleOf(rec) == t && rec.contentId == id then
        DecodeTotals(d.detected + (if rec.detected then 1 else 0), d.decoded + (if rec.decoded then 1 else 0), d.total + 1)
      else d
  }

  /** `ddf_all.groupby(...).sum()` looked up by the left merge. */
  function DecodeGroup(rows: seq<Record>, t: Triple, id: string): Option<DecodeTotals> {
    var d := DecodeCounts(rows, t, id);
    if d.total == 0 then None else Some(d)
  }

  function PerRowOf(rows: seq<Record>, rec: Record): PerRow {
    PerRow(TripleOf(rec), rec.contentId, rec.dims, rec.timeMs, rec.psnr, rec.ssim, rec.tpcp,
           ContentSize(rec.dims), DecodeGroup(rows, TripleOf(rec), rec.contentId))
  }

  /** The encode rows of df, in order. */
  function Encodes(rows: seq<Record>): (r: seq<Record>)
    ensures forall rec :: rec in r <==> rec in rows && rec.operation == "encode"
    ensures forall rec :: multiset(r)[rec] == if rec.operation == "encode" then multiset(rows)[rec] else 0
    decreases |rows|
  {
    if rows == [] then []
    else
      var front := rows[..|rows| - 1];
      var last := rows[|rows| - 1];
      assert rows == front + [last];
      Encodes(front) + (if last.operation == "encode" then [last] else [])
  }

  /** The encode rows keep their order in df. */
  lemma {:induction false} EncodesAppend(a: seq<Record>, b: seq<Record>)
    ensures Encodes(a + b) == Encodes(a) + Encodes(b)
    decreases |b|
  {
    if b == [] {
      assert a + b == a;
    } else {
      var front, x := b[..|b| - 1], b[|b| - 1];
      assert (a + b)[..|a + b| - 1] == a + front && (a + b)[|a + b| - 1] == x;
      EncodesAppend(a, front);
      var tail := if x.operation == "encode" then [x] else [];
      AppendAssoc(Encodes(a), Encodes(front), tail);
    }
  }

  /** `summarize_per`: one row per encode row, in order. */
  function PerSummary(df: seq<Record>): (r: seq<PerRow>)
    ensures |r| == |Encodes(df)|
  {
    var enc := Encodes(df);
    seq(|enc|, (i: int) requires 0 <= i < |enc| => PerRowOf(df, enc[i]))
  }

  /** Under the detection rule, an item's decoded count is at most its
      detected count, which is at most its number of decode rows. */
  lemma {:induction false} DecodeCountsOrdered(rows: seq<Record>, t: Triple, id: string)
    requires forall rec :: rec in rows ==> FlagsConsistent(rec)
    ensures var d := DecodeCounts(rows, t, id); d.decoded <= d.detected <= d.total
    decreases |rows|
  {
    if rows != [] {
      assert FlagsConsistent(rows[|rows| - 1]);
      DecodeCountsOrdered(rows[..|rows| - 1], t, id);
    }
  }

  /** Every row of df_per: decoded ≤ detected ≤ total when the item has
      decode rows. */
  lemma PerSummaryOrdered(df: seq<Record>)
    requires forall rec :: rec in df ==> FlagsConsistent(rec)
    ensures forall p :: p in PerSummary(df) && p.decodes.Some? ==>
      p.decodes.value.decoded <= p.decodes.value.detected <= p.decodes.value.total
  {
    forall p | p in PerSummary(df) && p.decodes.Some?
      ensures p.decodes.value.decoded <= p.decodes.value.detected <= p.decodes.value.total
    {
      DecodeCountsOrdered(df, p.triple, p.contentId);
    }
  }

  // ---------------------------------------------------------------------
  // summarize_edit

  /** A row of df merged (left) with the content sizes of its item. */
  datatype Merged = Merged(rec: Record, size: Option<nat>)

  /** The content sizes of df_per's rows for an item, in order. */
  function SizesOf(per: seq<PerRow>, t: Triple, id: string): (r: seq<nat>)
    decreases |per|
  {
    if per == [] then []
    else
      var p := per[|per| - 1];
      SizesOf(per[..|per| - 1], t, id) + (if p.triple == t && p.contentId == id then [p.size] else [])
  }

  /** `pd.merge(df, df_per[...], how='left')`: each row once per matching
      df_per row, or once with no size. */
  function MergeSizes(df: seq<Record>, per: seq<PerRow>): seq<Merged>
    decreases |df|
  {
    if df == [] then []
    else
      var rec := df[|df| - 1];
      var sizes := SizesOf(per, TripleOf(rec), rec.contentId);
      MergeSizes(df[..|df| - 1], per)
        + (if sizes == [] then [Merged(rec, None)]
           else seq(|sizes|, (i: int) requires 0 <= i < |sizes| => Merged(rec, Some(sizes[i]))))
  }

  /** `time_taken_ms / (256 + content_size)`; NaN (None) without a size. */
  function Ntime(m: Merged): Option<real> {
    if m.size.Some? then Some(m.rec.timeMs as real / (256 + m.size.value) as real) else None
  }

  /** The group-by key of summarize_edit. */
  datatype EditKey = EditKey(triple: Triple, editType: string)

  function EditKeyOf(m: Merged): EditKey {
    EditKey(TripleOf(m.rec), m.rec.editType)
  }

  /** The summed columns of a group; NaN times are skipped by the sum. */
  datatype EditSums = EditSums(error: nat, detected: nat, decoded: nat, count: nat, ntime: real)

  function EditTotals(ms: seq<Merged>, k: EditKey): (s: EditSums)
    decreases |ms|
  {
    if ms == [] then EditSums(0, 0, 0, 0, 0.0)
    else
      var s := EditTotals(ms[..|ms| - 1], k);
      var m := ms[|ms| - 1];
      if EditKeyOf(m) != k then s
      else
        var nt := Ntime(m);
        EditSums(s.error + (if m.rec.error then 1 else 0), s.detected + (if m.rec.detected then 1 else 0),
                 s.decoded + (if m.rec.decoded then 1 else 0), s.count + 1,
                 s.ntime + (if nt.Some? then nt.value else 0.0))
  }

  /** A row of df_edit: the group's sums, with ntime divided by count. */
  datatype EditRow = EditRow(key: EditKey, error: nat, detected: nat, decoded: nat, count: nat, ntime: real)

  function EditRowOf(ms: seq<Merged>, k: EditKey): EditRow {
    var s := EditTotals(ms, k);
    EditRow(k, s.error, s.detected, s.decoded, s.count, if s.count == 0 then 0.0 else s.ntime / s.count as real)
  }

  /** The distinct elements of xs in order of first appearance. */
  function Distinct<T(==,!new)>(xs: seq<T>): (r: seq<T>)
    ensures forall x :: x in r <==> x in xs
    ensures forall i, j :: 0 <= i < j < |r| ==> r[i] != r[j]
    decreases |xs|
  {
    if xs == [] then []
    else
      var d := Distinct(xs[..|xs| - 1]);
      assert xs == xs[..|xs| - 1] + [xs[|xs| - 1]];
      if xs[|xs| - 1] in d then d else d + [xs[|xs| - 1]]
  }

  function KeysOf(ms: seq<Merged>): (r: seq<EditKey>)
    ensures |r| == |ms| && forall i :: 0 <= i < |ms| ==> r[i] == EditKeyOf(ms[i])
  {
    seq(|ms|, (i: int) requires 0 <= i < |ms| => EditKeyOf(ms[i]))
  }

  /** The rows of df_edit for the keys ks, in that order. */
  function EditRows(ms: seq<Merged>, ks: seq<EditKey>): (r: seq<EditRow>)
    ensures |r| == |ks| && forall i :: 0 <= i < |ks| ==> r[i] == EditRowOf(ms, ks[i])
    decreases |ks|
  {
    if ks == [] then [] else EditRows(ms, ks[..|ks| - 1]) + [EditRowOf(ms, ks[|ks| - 1])]
  }

  /** `summarize_edit`: one row per (triple, edit_type) group. */
  function EditSummary(ms: seq<Merged>): seq<EditRow> {
    EditRows(ms, Distinct(KeysOf(ms)))
  }

  /** A group of df_edit exists exactly for a key some merged row has, and
      its count is that key's number of rows. */
  lemma {:induction false} EditCountPositive(ms: seq<Merged>, k: EditKey)
    ensures EditTotals(ms, k).count > 0 <==> k in KeysOf(ms)
    decreases |ms|
  {
    if ms != [] {
      var front := ms[..|ms| - 1];
      EditCountPositive(front, k);
      assert KeysOf(ms) == KeysOf(front) + [EditKeyOf(ms[|ms| - 1])];
    }
  }

  /** Each row counts at most once as decoded. */
  lemma {:induction false} EditDecodedAtMostCount(ms: seq<Merged>, k: EditKey)
    ensures EditTotals(ms, k).decoded <= EditTotals(ms, k).count
    ensures EditTotals(ms, k).error <= EditTotals(ms, k).count
    decreases |ms|
  {
    if ms != [] {
      EditDecodedAtMostCount(ms[..|ms| - 1], k);
    }
  }

  /** The per-edit ntime is a mean with each row weighted equally: when
      every row of the group has a size and a time per pixel-side between
      lo and hi, so is the group's ntime. */
  lemma {:induction false} EditNtimeSum(ms: seq<Merged>, k: EditKey, lo: real, hi: real)
    requires forall m :: m in ms && EditKeyOf(m) == k ==> Ntime(m).Some? && lo <= Ntime(m).value <= hi
    ensures var s := EditTotals(ms, k); Times(s.count, lo) <= s.ntime <= Times(s.count, hi)
    decreases |ms|
  {
    hide Ntime;
    if ms != [] {
      var front := ms[..|ms| - 1];
      assert forall m :: m in front ==> m in ms;
      EditNtimeSum(front, k, lo, hi);
      assert ms[|ms| - 1] in ms;
    }
  }

  lemma EditNtimeMean(ms: seq<Merged>, k: EditKey, lo: real, hi: real)
    requires k in KeysOf(ms)
    requires forall m :: m in ms && EditKeyOf(m) == k ==> Ntime(m).Some? && lo <= Ntime(m).value <= hi
    ensures lo <= EditRowOf(ms, k).ntime <= hi
  {
    EditCountPositive(ms, k);
    EditNtimeSum(ms, k, lo, hi);
    var s := EditTotals(ms, k);
    MeanBetween(s.ntime, s.count, lo, hi);
  }

  /** n copies of x added up. */
  function Times(n: nat, x: real): real
    decreases n
  {
    if n == 0 then 0.0 else Times(n - 1, x) + x
  }

  lemma {:induction false} TimesIsProduct(n: nat, x: real)
    ensures Times(n, x) == n as real * x
    decreases n
  {
    if n > 0 {
      TimesIsProduct(n - 1, x);
      assert (n - 1) as real * x + x == n as real * x;
    }
  }

  /** A sum of n terms between lo and hi, divided by n, is between them. */
  lemma MeanBetween(sum: real, n: nat, lo: real, hi: real)
    requires n > 0 && Times(n, lo) <= sum <= Times(n, hi)
    ensures lo <= sum / n as real <= hi
  {
    TimesIsProduct(n, lo);
    TimesIsProduct(n, hi);
    var d := n as real;
    var m := sum / d;
    assert m * d == sum;
    assert (m - lo) * d == sum - d * lo;
    assert (hi - m) * d == d * hi - sum;
  }

  // ---------------------------------------------------------------------
  // summarize_score: the decode side

  /** The decode composite's sums: trials, decoded trials, summed times. */
  datatype Tally = Tally(count: nat, decoded: nat, ntime: real) {
    function Plus(other: Tally): Tally {
      Tally(count + other.count, decoded + other.decoded, ntime + other.ntime)
    }
  }

  /** What one trial row adds: itself, whether it decoded, its time. */
  function Contribution(m: Merged): Tally {
    var nt := Ntime(m);
    Tally(1, if m.rec.decoded then 1 else 0, if nt.Some? then nt.value else 0.0)
  }

  /** A df_edit group's sums as a Tally. */
  function GroupTally(g: EditSums): Tally {
    Tally(g.count, g.decoded, g.ntime)
  }

  /** A row that is a decode trial of the triple (its edit type is set). */
  predicate TrialOf(k: EditKey, t: Triple) {
    k.triple == t && k.editType != ""
  }

  /** `dec_zdf[dec_zdf['edit_type'] != '']`, `dec_ntime = ntime * count`,
      grouped by triple and summed. */
  function DecTotals(rows: seq<EditRow>, t: Triple): Tally
    decreases |rows|
  {
    if rows == [] then Tally(0, 0, 0.0)
    else
      var s := DecTotals(rows[..|rows| - 1], t);
      var e := rows[|rows| - 1];
      if TrialOf(e.key, t) then s.Plus(RowTally(e)) else s
  }

  /** A df_edit row's part of the composite: `dec_ntime = ntime * count`. */
  function RowTally(e: EditRow): Tally {
    Tally(e.count, e.decoded, e.ntime * e.count as real)
  }

  /** The same sums taken directly over the merged trial rows. */
  function TrialTotals(ms: seq<Merged>, t: Triple): Tally
    decreases |ms|
  {
    if ms == [] then Tally(0, 0, 0.0)
    else
      var s := TrialTotals(ms[..|ms| - 1], t);
      var m := ms[|ms| - 1];
      if TrialOf(EditKeyOf(m), t) then s.Plus(Contribution(m)) else s
  }

  /** The groups' raw sums over the keys ks. */
  function Regroup(ms: seq<Merged>, ks: seq<EditKey>, t: Triple): Tally
    decreases |ks|
  {
    if ks == [] then Tally(0, 0, 0.0)
    else
      var s := Regroup(ms, ks[..|ks| - 1], t);
      var k := ks[|ks| - 1];
      if TrialOf(k, t) then s.Plus(GroupTally(EditTotals(ms, k))) else s
  }

  /** The composite over df_edit's rows equals the raw group sums. */
  lemma {:induction false} DecTotalsRegroup(ms: seq<Merged>, ks: seq<EditKey>, t: Triple)
    requires forall k :: k in ks ==> k in KeysOf(ms)
    ensures DecTotals(EditRows(ms, ks), t) == Regroup(ms, ks, t)
    decreases |ks|
  {
    if ks != [] {
      var front := ks[..|ks| - 1];
      var k := ks[|ks| - 1];
      assert ks == front + [k];
      assert forall x :: x in front ==> x in ks;
      hide EditTotals, KeysOf, Ntime, EditRowOf, DecTotals, Regroup, RowTally, GroupTally;
      DecTotalsRegroup(ms, front, t);
      RowTallyOf(ms, k);
      assert EditRows(ms, ks) == EditRows(ms, front) + [EditRowOf(ms, k)];
      DecTotalsSnoc(EditRows(ms, front), EditRowOf(ms, k), t);
      RegroupKey(ms, front, k, t);
    }
  }

  /** Multiplying a group's mean time back by its count gives its sum. */
  lemma RowTallyOf(ms: seq<Merged>, k: EditKey)
    requires k in KeysOf(ms)
    ensures RowTally(EditRowOf(ms, k)) == GroupTally(EditTotals(ms, k))
  {
    EditCountPositive(ms, k);
    var g := EditTotals(ms, k);
    MeanTimesCount(g.ntime, g.count);
  }

  /** DecTotals over one more row of df_edit. */
  lemma DecTotalsSnoc(rows: seq<EditRow>, e: EditRow, t: Triple)
    ensures var s := DecTotals(rows, t);
      DecTotals(rows + [e], t) == if TrialOf(e.key, t) then s.Plus(RowTally(e)) else s
  {
    assert (rows + [e])[..|rows|] == rows;
  }

  lemma MeanTimesCount(s: real, n: nat)
    requires n > 0
    ensures s / n as real * n as real == s
  {}

  /** A key no merged row has contributes nothing. */
  lemma {:induction false} EditTotalsAbsent(ms: seq<Merged>, k: EditKey)
    requires k !in KeysOf(ms)
    ensures EditTotals(ms, k) == EditSums(0, 0, 0, 0, 0.0)
  {
    EditCountPositive(ms, k);
    EditTotalsZero(ms, k);
  }

  lemma {:induction false} EditTotalsZero(ms: seq<Merged>, k: EditKey)
    requires EditTotals(ms, k).count == 0
    ensures EditTotals(ms, k) == EditSums(0, 0, 0, 0, 0.0)
    decreases |ms|
  {
    if ms != [] {
      EditTotalsZero(ms[..|ms| - 1], k);
    }
  }

  /** One more merged row adds its contribution to the one group of its
      key, when the keys are distinct. */
  lemma {:induction false} RegroupSnoc(ms: seq<Merged>, m: Merged, ks: seq<EditKey>, t: Triple)
    requires forall i, j :: 0 <= i < j < |ks| ==> ks[i] != ks[j]
    ensures var s := Regroup(ms, ks, t);
      Regroup(ms + [m], ks, t) == if EditKeyOf(m) in ks && TrialOf(EditKeyOf(m), t) then s.Plus(Contribution(m)) else s
    decreases |ks|
  {
    if ks != [] {
      var front := ks[..|ks| - 1];
      RegroupSnoc(ms, m, front, t);
      EditTotalsStep(ms, m, ks[|ks| - 1]);
      assert EditKeyOf(m) in ks <==> EditKeyOf(m) in front || EditKeyOf(m) == ks[|ks| - 1];
      if EditKeyOf(m) == ks[|ks| - 1] {
        assert EditKeyOf(m) !in front;
      }
    }
  }

  /** The decode composite over df_edit's groups equals the sums over the
      trial rows themselves: dec_count counts trials and dec_ntime is the
      per-trial mean, whatever the grouping. */
  lemma {:induction false} DecTotalsPerTrial(ms: seq<Merged>, t: Triple)
    ensures DecTotals(EditSummary(ms), t) == TrialTotals(ms, t)
    decreases |ms|
  {
    DecTotalsRegroup(ms, Distinct(KeysOf(ms)), t);
    RegroupPerTrial(ms, t);
  }

  lemma {:induction false} RegroupPerTrial(ms: seq<Merged>, t: Triple)
    ensures Regroup(ms, Distinct(KeysOf(ms)), t) == TrialTotals(ms, t)
    decreases |ms|
  {
    if ms == [] {
      assert KeysOf(ms) == [];
    } else {
      var front := ms[..|ms| - 1];
      var m := ms[|ms| - 1];
      assert ms == front + [m];
      hide Ntime, EditRowOf, EditRows, TrialTotals, Distinct, KeysOf, Regroup, EditTotals, Contribution, GroupTally;
      RegroupPerTrial(front, t);
      var ks := Distinct(KeysOf(front));
      var km := EditKeyOf(m);
      TrialTotalsSnoc(front, m, t);
      KeysOfSnoc(front, m);
      DistinctSnoc(KeysOf(front), km);
      RegroupSnoc(front, m, ks, t);
      if km !in ks {
        EditTotalsAbsent(front, km);
        EditTotalsSnoc(front, m);
        RegroupKey(ms, ks, km, t);
      }
    }
  }

  lemma TrialTotalsSnoc(ms: seq<Merged>, m: Merged, t: Triple)
    ensures var s := TrialTotals(ms, t);
      TrialTotals(ms + [m], t) == if TrialOf(EditKeyOf(m), t) then s.Plus(Contribution(m)) else s
  {
    assert (ms + [m])[..|ms|] == ms;
  }

  lemma KeysOfSnoc(ms: seq<Merged>, m: Merged)
    ensures KeysOf(ms + [m]) == KeysOf(ms) + [EditKeyOf(m)]
  {
  }

  /** One more merged row adds to its own key's group only. */
  lemma EditTotalsStep(ms: seq<Merged>, m: Merged, k: EditKey)
    ensures var g := GroupTally(EditTotals(ms, k));
      GroupTally(EditTotals(ms + [m], k)) == if EditKeyOf(m) == k then g.Plus(Contribution(m)) else g
  {
    assert (ms + [m])[..|ms|] == ms;
  }

  /** The group of a new key holds just the new row. */
  lemma EditTotalsSnoc(ms: seq<Merged>, m: Merged)
    requires EditTotals(ms, EditKeyOf(m)) == EditSums(0, 0, 0, 0, 0.0)
    ensures GroupTally(EditTotals(ms + [m], EditKeyOf(m))) == Contribution(m)
  {
    EditTotalsStep(ms, m, EditKeyOf(m));
  }

  /** Distinct of one more element. */
  lemma DistinctSnoc<T(!new)>(xs: seq<T>, x: T)
    ensures Distinct(xs + [x]) == if x in Distinct(xs) then Distinct(xs) else Distinct(xs) + [x]
  {
    assert (xs + [x])[..|xs|] == xs;
  }

  /** Regroup over one more key adds that key's group when it is a trial. */
  lemma RegroupKey(ms: seq<Merged>, ks: seq<EditKey>, k: EditKey, t: Triple)
    ensures var s := Regroup(ms, ks, t);
      var g := EditTotals(ms, k);
      Regroup(ms, ks + [k], t) == if TrialOf(k, t) then s.Plus(GroupTally(g)) else s
  {
    hide EditTotals;
    assert (ks + [k])[..|ks|] == ks;
  }

  /** Trials never count more decoded than there are trials. */
  lemma {:induction false} TrialDecodedAtMostCount(ms: seq<Merged>, t: Triple)
    ensures TrialTotals(ms, t).decoded <= TrialTotals(ms, t).count
    decreases |ms|
  {
    if ms != [] {
      TrialDecodedAtMostCount(ms[..|ms| - 1], t);
    }
  }

  /** The decode composite of a triple. */
  datatype DecScore = DecScore(count: nat, ntime: real, score: real)

  function DecScoreOf(s: Tally): DecScore {
    if s.count == 0 then DecScore(0, 0.0, 0.0)
    else DecScore(s.count, s.ntime / s.count as real, s.decoded as real / s.count as real * 100.0)
  }

  /** dec_score is a percentage. */
  lemma DecScoreBounds(ms: seq<Merged>, t: Triple)
    ensures var d := DecScoreOf(DecTotals(EditSummary(ms), t)); 0.0 <= d.score <= 100.0
  {
    DecTotalsPerTrial(ms, t);
    TrialDecodedAtMostCount(ms, t);
    var s := TrialTotals(ms, t);
    if s.count > 0 {
      TimesIsProduct(s.count, 0.0);
      TimesIsProduct(s.count, 1.0);
      MeanBetween(s.decoded as real, s.count, 0.0, 1.0);
    }
  }

  // ---------------------------------------------------------------------
  // summarize_score: the encode side

  /** The encode columns summed per triple. */
  datatype EncColumn = NtimeColumn | PsnrColumn | SsimColumn | PcpaColumn

  /** A df_per row's value in a column: `10 / (10 + pcpa)` for pcpa. */
  function EncValue(p: PerRow, c: EncColumn): real {
    match c
    case NtimeColumn => p.timeMs as real / (256 + p.size) as real
    case PsnrColumn => p.psnr
    case SsimColumn => p.ssim
    case PcpaColumn => 10.0 / (10.0 + p.pcpa)
  }

  function EncCount(per: seq<PerRow>, t: Triple): nat
    decreases |per|
  {
    if per == [] then 0
    else EncCount(per[..|per| - 1], t) + (if per[|per| - 1].triple == t then 1 else 0)
  }

  function EncSum(per: seq<PerRow>, t: Triple, c: EncColumn): real
    decreases |per|
  {
    if per == [] then 0.0
    else EncSum(per[..|per| - 1], t, c) + (if per[|per| - 1].triple == t then EncValue(per[|per| - 1], c) else 0.0)
  }

  /** When every row of the triple has a value between lo and hi in the
      column, the column's sum lies between count·lo and count·hi. */
  lemma {:induction false} EncSumBetween(per: seq<PerRow>, t: Triple, c: EncColumn, lo: real, hi: real)
    requires forall p :: p in per && p.triple == t ==> lo <= EncValue(p, c) <= hi
    ensures Times(EncCount(per, t), lo) <= EncSum(per, t, c) <= Times(EncCount(per, t), hi)
    decreases |per|
  {
    hide EncValue;
    if per != [] {
      var front := per[..|per| - 1];
      var p := per[|per| - 1];
      assert forall q :: q in front ==> q in per;
      EncSumBetween(front, t, c, lo, hi);
      var n, sum := EncCount(front, t), EncSum(front, t, c);
      if p.triple == t {
        assert p in per;
        assert EncCount(per, t) == n + 1 && EncSum(per, t, c) == sum + EncValue(p, c);
      } else {
        assert EncCount(per, t) == n && EncSum(per, t, c) == sum;
      }
    }
  }

  lemma {:induction false} EncCountPositive(per: seq<PerRow>, t: Triple)
    ensures EncCount(per, t) > 0 <==> exists p :: p in per && p.triple == t
    decreases |per|
  {
    if per != [] {
      var front := per[..|per| - 1];
      EncCountPositive(front, t);
      assert per == front + [per[|per| - 1]];
    }
  }

  /** The encode composite of a triple. */
  datatype EncScore = EncScore(count: nat, ntime: real, psnr: real, ssim: real, pcpa: real)

  /** `enc_pcpa = 10 / (sum(10 / (10 + pcpa)) / count) - 10`. */
  function HarmonicPcpa(q: real, n: nat): real
    requires q > 0.0 && n > 0
  {
    10.0 / (q / n as real) - 10.0
  }

  /** Every term 10/(10 + pcpa) is positive, so a triple with rows has a
      positive sum of them. */
  lemma {:induction false} PcpaTermPositive(per: seq<PerRow>, t: Triple)
    ensures EncSum(per, t, PcpaColumn) >= 0.0
    ensures EncCount(per, t) > 0 ==> EncSum(per, t, PcpaColumn) > 0.0
    decreases |per|
  {
    if per != [] {
      PcpaTermPositive(per[..|per| - 1], t);
    }
  }

  /** 10 / (10 + x) is decreasing. */
  lemma PcpaTermBounds(x: NonNeg, y: NonNeg)
    requires x <= y
    ensures 10.0 / (10.0 + y) <= 10.0 / (10.0 + x)
  {
    assert 10.0 / (10.0 + y) * (10.0 + y) == 10.0;
    assert 10.0 / (10.0 + x) * (10.0 + x) == 10.0;
  }

  function EncScoreOf(per: seq<PerRow>, t: Triple): EncScore
    requires EncCount(per, t) > 0
  {
    var n := EncCount(per, t);
    PcpaTermPositive(per, t);
    EncScore(n, EncSum(per, t, NtimeColumn) / n as real, EncSum(per, t, PsnrColumn) / n as real,
             EncSum(per, t, SsimColumn) / n as real, HarmonicPcpa(EncSum(per, t, PcpaColumn), n))
  }

  /** enc_psnr is the arithmetic mean of the triple's PSNRs: between any
      bounds of them, and equal to their common value when they agree. */
  lemma PsnrMean(per: seq<PerRow>, t: Triple, lo: real, hi: real)
    requires EncCount(per, t) > 0
    requires forall p :: p in per && p.triple == t ==> lo <= p.psnr <= hi
    ensures lo <= EncScoreOf(per, t).psnr <= hi
  {
    EncSumBetween(per, t, PsnrColumn, lo, hi);
    MeanBetween(EncSum(per, t, PsnrColumn), EncCount(per, t), lo, hi);
  }

  /** enc_pcpa is the harmonic-type mean 10/mean(10/(10+p)) − 10: between
      any bounds of the triple's pcpa values, and so equal to their common
      value when they agree. */
  lemma PcpaMean(per: seq<PerRow>, t: Triple, lo: NonNeg, hi: NonNeg)
    requires EncCount(per, t) > 0
    requires forall p :: p in per && p.triple == t ==> lo <= p.pcpa <= hi
    ensures lo <= EncScoreOf(per, t).pcpa <= hi
  {
    var n := EncCount(per, t);
    var a, b := 10.0 / (10.0 + hi), 10.0 / (10.0 + lo);
    forall p | p in per && p.triple == t
      ensures a <= EncValue(p, PcpaColumn) <= b
    {
      PcpaTermBounds(p.pcpa, hi);
      PcpaTermBounds(lo, p.pcpa);
    }
    EncSumBetween(per, t, PcpaColumn, a, b);
    PcpaTermPositive(per, t);
    var q := EncSum(per, t, PcpaColumn);
    MeanBetween(q, n, a, b);
    var m := q / n as real;
    InvertBetween(m, lo, hi);
  }

  /** If 10/(10+hi) ≤ m ≤ 10/(10+lo) then lo ≤ 10/m − 10 ≤ hi. */
  lemma InvertBetween(m: real, lo: NonNeg, hi: NonNeg)
    requires 10.0 / (10.0 + hi) <= m <= 10.0 / (10.0 + lo) && m > 0.0
    ensures lo <= 10.0 / m - 10.0 <= hi
  {
    assert 10.0 / (10.0 + hi) * (10.0 + hi) == 10.0;
    assert 10.0 / (10.0 + lo) * (10.0 + lo) == 10.0;
    assert 10.0 / m * m == 10.0;
    assert m * (10.0 + lo) <= 10.0;
    assert m * (10.0 + hi) >= 10.0;
  }

  /** enc_ntime as written: the sum of the triple's times, never divided
      by enc_count (unlike enc_psnr and dec_ntime). */
  function EncNtimeAsWritten(per: seq<PerRow>, t: Triple): real {
    EncSum(per, t, NtimeColumn)
  }

  /** Two encodes of one triple, each with time per side 1, report an
      enc_ntime of 2 as written, while the mean is 1. */
  lemma EncNtimeIsASum(t: Triple)
    ensures var p := PerRow(t, "a", [256, 1], 512, 0.0, 0.0, 0.0, 256, None);
      var per := [p, p.(contentId := "b")];
      && EncValue(p, NtimeColumn) == 1.0
      && EncNtimeAsWritten(per, t) == 2.0
      && EncScoreOf(per, t).ntime == 1.0
  {
    var p := PerRow(t, "a", [256, 1], 512, 0.0, 0.0, 0.0, 256, None);
    var per := [p, p.(contentId := "b")];
    assert per[..1] == [p];
    assert [p][..0] == [];
    assert EncValue(p, NtimeColumn) == 1.0;
    assert EncValue(per[1], NtimeColumn) == 1.0;
    assert EncCount([p], t) == 1 && EncSum([p], t, NtimeColumn) == 1.0;
    assert EncCount(per, t) == 2 && EncSum(per, t, NtimeColumn) == 2.0;
  }

  /** With every time per side between lo and hi, enc_ntime (a mean) is
      between them too. */
  lemma EncNtimeMean(per: seq<PerRow>, t: Triple, lo: real, hi: real)
    requires EncCount(per, t) > 0
    requires forall p :: p in per && p.triple == t ==> lo <= EncValue(p, NtimeColumn) <= hi
    ensures lo <= EncScoreOf(per, t).ntime <= hi
  {
    EncSumBetween(per, t, NtimeColumn, lo, hi);
    MeanBetween(EncSum(per, t, NtimeColumn), EncCount(per, t), lo, hi);
  }

  // ---------------------------------------------------------------------
  // summarize_score: the outer join

  /** A row of df_score: either side may be missing (NaN). */
  datatype ScoreRow = ScoreRow(enc: Option<EncScore>, dec: Option<DecScore>)

  function EncTriples(per: seq<PerRow>): set<Triple> {
    set p | p in per :: p.triple
  }

  function DecTriples(edits: seq<EditRow>): set<Triple> {
    set e | e in edits && e.key.editType != "" :: e.key.triple
  }

  /** `pd.merge(enc, dec, how='outer')`: every triple of either side. */
  function ScoreSummary(per: seq<PerRow>, edits: seq<EditRow>): map<Triple, ScoreRow> {
    map t | t in EncTriples(per) + DecTriples(edits) ::
      ScoreRow(
        if t in EncTriples(per) then
          EncCountPositive(per, t);
          Some(EncScoreOf(per, t))
        else None,
        if t in DecTriples(edits) then Some(DecScoreOf(DecTotals(edits, t))) else None)
  }

  /** The triple has an encode row among the analysed rows. */
  predicate HasEncode(df: seq<Record>, t: Triple) {
    exists rec :: rec in df && rec.operation == "encode" && TripleOf(rec) == t
  }

  /** The triple has a decode trial (a row with an edit type). */
  predicate HasTrial(ms: seq<Merged>, t: Triple) {
    exists m :: m in ms && TrialOf(EditKeyOf(m), t)
  }

  lemma EncTriplesOf(df: seq<Record>, t: Triple)
    ensures t in EncTriples(PerSummary(df)) <==> HasEncode(df, t)
  {
    var per := PerSummary(df);
    var enc := Encodes(df);
    if HasEncode(df, t) {
      var rec :| rec in df && rec.operation == "encode" && TripleOf(rec) == t;
      var i :| 0 <= i < |enc| && enc[i] == rec;
      assert per[i].triple == t;
    }
    if t in EncTriples(per) {
      var i :| 0 <= i < |per| && per[i].triple == t;
      assert enc[i] in df;
    }
  }

  lemma DecTriplesOf(ms: seq<Merged>, t: Triple)
    ensures t in DecTriples(EditSummary(ms)) <==> HasTrial(ms, t)
  {
    hide EditTotals;
    var edits := EditSummary(ms);
    var ks := Distinct(KeysOf(ms));
    if HasTrial(ms, t) {
      var m :| m in ms && TrialOf(EditKeyOf(m), t);
      var i :| 0 <= i < |ms| && ms[i] == m;
      assert EditKeyOf(m) in KeysOf(ms);
      var j :| 0 <= j < |ks| && ks[j] == EditKeyOf(m);
      assert edits[j].key == EditKeyOf(m);
    }
    if t in DecTriples(edits) {
      var e :| e in edits && e.key.editType != "" && e.key.triple == t;
      var j :| 0 <= j < |edits| && edits[j] == e;
      assert ks[j] in KeysOf(ms);
      var i :| 0 <= i < |ms| && KeysOf(ms)[i] == ks[j];
      assert ms[i] in ms;
    }
  }

  /** The score view's triples are those with an encode row or a decode
      trial among the analysed rows, each side present exactly when that
      triple has rows of its kind. */
  lemma ScoreKeys(df: seq<Record>, t: Triple)
    ensures var per := PerSummary(df);
      var ms := MergeSizes(df, per);
      var score := ScoreSummary(per, EditSummary(ms));
      && (t in score <==> HasEncode(df, t) || HasTrial(ms, t))
      && (t in score ==> (score[t].enc.Some? <==> HasEncode(df, t)) && (score[t].dec.Some? <==> HasTrial(ms, t)))
  {
    var per := PerSummary(df);
    var ms := MergeSizes(df, per);
    EncTriplesOf(df, t);
    DecTriplesOf(ms, t);
    hide PerSummary, MergeSizes, EditSummary, EncScoreOf, DecTotals, HasEncode, HasTrial;
  }

  // ---------------------------------------------------------------------
  // ImageAnalysis

  /** `ImageAnalysis(input)` once its rows are loaded: `__init__` prunes
      them and then builds each view from the pruned rows. */
  class ImageAnalysis {
    var df: seq<Record>
    var dfPer: seq<PerRow>
    var dfEdit: seq<EditRow>
    var dfScore: map<Triple, ScoreRow>

    constructor(rows: seq<Record>)
      ensures df == Prune(rows)
      ensures dfPer == PerSummary(df)
      ensures dfEdit == EditSummary(MergeSizes(df, dfPer))
      ensures dfScore == ScoreSummary(dfPer, dfEdit)
    {
      df := Prune(rows);
      dfPer := [];
      dfEdit := [];
      dfScore := map[];
      new;
      SummarizePer();
      SummarizeEdit();
      SummarizeScore();
    }

    /** `summarize_per`. */
    method SummarizePer()
      modifies this
      ensures dfPer == PerSummary(df)
      ensures df == old(df) && dfEdit == old(dfEdit) && dfScore == old(dfScore)
    {
      dfPer := PerSummary(df);
    }

    /** `summarize_edit`: the merge with df_per, then the per-edit groups. */
    method SummarizeEdit()
      modifies this
      ensures dfEdit == EditSummary(MergeSizes(df, dfPer))
      ensures df == old(df) && dfPer == old(dfPer) && dfScore == old(dfScore)
    {
      dfEdit := EditSummary(MergeSizes(df, dfPer));
    }

    /** `summarize_score`: the two composites, outer-joined. */
    method SummarizeScore()
      modifies this
      ensures dfScore == ScoreSummary(dfPer, dfEdit)
      ensures df == old(df) && dfPer == old(dfPer) && dfEdit == old(dfEdit)
    {
      dfScore := ScoreSummary(dfPer, dfEdit);
    }
  }

  /** `ImageAnalysis(input)`: the rows loaded (the file loop of
      `__init__`), then the analysis, or the ValueError of an empty
      concatenation. */
  method Analyze(store: Store, input: Input) returns (r: Result<ImageAnalysis>)
    ensures r.Err? <==> Load(store, input).Err?
    ensures r.Ok? ==> fresh(r.value) && r.value.df == Prune(Load(store, input).value)
    ensures r.Ok? ==> r.value.dfPer == PerSummary(r.value.df)
    ensures r.Ok? ==> r.value.dfEdit == EditSummary(MergeSizes(r.value.df, r.value.dfPer))
    ensures r.Ok? ==> r.value.dfScore == ScoreSummary(r.value.dfPer, r.value.dfEdit)
  {
    var rows: seq<Record>;
    match input {
      case Frame(given) =>
        rows := given;
      case Named(name) =>
        var files := store.glob(store.cwd + "/results/" + name + ".json");
        if files == [] {
          return Err(ValueError);
        }
        rows := [];
        for k := 0 to |files|
          invariant rows == Concat(store, files[..k])
        {
          assert files[..k + 1][..k] == files[..k];
          rows := rows + store.readJson(files[k]);
        }
        assert files[..|files|] == files;
    }
    var a := new ImageAnalysis(rows);
    r := Ok(a);
  }

  /** The analysis only ever sees successful image rows: every content
      item of df_per comes from a kept encode row. */
  lemma PerFromKept(rows: seq<Record>)
    ensures forall p :: p in PerSummary(Prune(rows)) ==>
      exists rec :: (rec in rows && Kept(rec) && rec.operation == "encode"
                     && TripleOf(rec) == p.triple && rec.contentId == p.contentId)
  {
    var df := Prune(rows);
    var enc := Encodes(df);
    forall p | p in PerSummary(df)
      ensures exists rec :: (rec in rows && Kept(rec) && rec.operation == "encode"
                             && TripleOf(rec) == p.triple && rec.contentId == p.contentId)
    {
      var i :| 0 <= i < |enc| && PerSummary(df)[i] == p;
      assert enc[i] in df;
    }
  }
}
