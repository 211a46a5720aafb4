/**
 * FSEOF with flux sampling (fseof_fs.py): fluxes are averaged over n
 * repeated loopless solves at two forced production levels, a reaction is a
 * target when its mean flux keeps its sign between the two levels, and the
 * targets are ranked by type and by how much their mean flux changed.
 */
module FseofFs {
  import opened Wrappers
  import opened Cobra
  import opened Targets
  import opened Probes

  const SinkSuffix := "_sink"

  /** Id of this variant's sink reaction for a target metabolite. */
  function SinkReactionId(targetMetaboliteId: string): string
  {
    SinkId(targetMetaboliteId, SinkSuffix)
  }

  datatype RunError =
    | SamplingFailed  // a repeated solve failed or lacked a reaction's flux
    | MissingFlux     // a reaction has no averaged flux (no samples were drawn)
    | NoTargets       // no reaction was classified: the empty table cannot be sorted

  // ---------------------------------------------------------------- averaging

  /** `sum(xs)`: the left-to-right sum. */
  function Sum(xs: seq<real>): real
  {
    if |xs| == 0 then 0.0 else Sum(xs[..|xs| - 1]) + xs[|xs| - 1]
  }

  /** `sum(xs) / len(xs)`. */
  function Mean(xs: seq<real>): real
    requires |xs| > 0
  {
    Sum(xs) / (|xs| as real)
  }

  function Minimum(xs: seq<real>): (m: real)
    requires |xs| > 0
    ensures m in xs
    ensures forall i :: 0 <= i < |xs| ==> m <= xs[i]
  {
    if |xs| == 1 then xs[0]
    else
      var m := Minimum(xs[1..]);
      assert forall i :: 1 <= i < |xs| ==> xs[i] == xs[1..][i - 1];
      if xs[0] <= m then xs[0] else m
  }

  function Maximum(xs: seq<real>): (m: real)
    requires |xs| > 0
    ensures m in xs
    ensures forall i :: 0 <= i < |xs| ==> xs[i] <= m
  {
    if |xs| == 1 then xs[0]
    else
      var m := Maximum(xs[1..]);
      assert forall i :: 1 <= i < |xs| ==> xs[i] == xs[1..][i - 1];
      if xs[0] >= m then xs[0] else m
  }

  lemma {:induction false} SumBetween(xs: seq<real>, lo: real, hi: real)
    requires forall i :: 0 <= i < |xs| ==> lo <= xs[i] <= hi
    ensures (|xs| as real) * lo <= Sum(xs) <= (|xs| as real) * hi
  {
    if |xs| > 0 {
      SumBetween(xs[..|xs| - 1], lo, hi);
    }
  }

  /** A mean of values inside [lo, hi] lies inside [lo, hi]. */
  lemma MeanBetween(xs: seq<real>, lo: real, hi: real)
    requires |xs| > 0
    requires forall i :: 0 <= i < |xs| ==> lo <= xs[i] <= hi
    ensures lo <= Mean(xs) <= hi
  {
    SumBetween(xs, lo, hi);
    var n := |xs| as real;
    var m := Mean(xs);
    assert m * n == Sum(xs);
    assert (m - lo) * n >= 0.0 && (hi - m) * n >= 0.0;
  }

  /** The mean lies between the smallest and the largest sample. */
  lemma MeanWithinSamples(xs: seq<real>)
    requires |xs| > 0
    ensures Minimum(xs) <= Mean(xs) <= Maximum(xs)
  {
    MeanBetween(xs, Minimum(xs), Maximum(xs));
  }

  /** n equal samples average to their common value. */
  lemma MeanOfEqualSamples(xs: seq<real>, c: real)
    requires |xs| > 0
    requires forall i :: 0 <= i < |xs| ==> xs[i] == c
    ensures Mean(xs) == c
  {
    MeanBetween(xs, c, c);
  }

  /** The k-th of the repeated loopless solves of a model in state s. */
  type Sampler = (ModelState, nat) -> SolveOutcome

  /** All n solves succeed and have a flux for every reaction. */
  predicate DrawsSucceed(sample: Sampler, s: ModelState, n: nat, ids: seq<string>)
  {
    forall k :: 0 <= k < n ==> sample(s, k).Optimal? && Covers(sample(s, k).fluxes, ids)
  }

  function Draws(sample: Sampler, s: ModelState, n: nat, ids: seq<string>): (d: seq<map<string, real>>)
    requires DrawsSucceed(sample, s, n, ids)
    ensures |d| == n
    ensures forall k :: 0 <= k < n ==> d[k] == sample(s, k).fluxes
  {
    seq(n, k requires 0 <= k < n => sample(s, k).fluxes)
  }

  /** Per reaction, the mean of its fluxes over the draws; no entries when there are no draws. */
  function MeanFluxes(draws: seq<map<string, real>>, ids: seq<string>): map<string, real>
    requires forall k, r :: 0 <= k < |draws| && r in ids ==> r in draws[k]
  {
    if |draws| == 0 then map[] else map r | r in ids :: Mean(Column(draws, r))
  }

  /** What `get_average_fluxes_from_n_solutions(n)` returns for a model in state s. */
  function AverageFluxes(sample: Sampler, s: ModelState, n: nat, ids: seq<string>): Result<map<string, real>, RunError>
  {
    if DrawsSucceed(sample, s, n, ids) then Success(MeanFluxes(Draws(sample, s, n, ids), ids))
    else Failure(SamplingFailed)
  }

  /**
   * With n >= 1 successful samples every reaction gets exactly one entry: the
   * sum of its n sampled fluxes divided by n, which lies between its smallest
   * and largest sample and equals c when every sample is c.
   */
  lemma AveragedFluxes(sample: Sampler, s: ModelState, n: nat, ids: seq<string>, r: string)
    requires n >= 1
    requires DrawsSucceed(sample, s, n, ids)
    requires r in ids
    ensures var m := AverageFluxes(sample, s, n, ids);
      var col := Column(Draws(sample, s, n, ids), r);
      m.Success? && m.value.Keys == set x | x in ids &&
      m.value[r] == Sum(col) / (n as real) &&
      (forall k :: 0 <= k < n ==> col[k] == sample(s, k).fluxes[r]) &&
      Minimum(col) <= m.value[r] <= Maximum(col) &&
      ((forall k :: 0 <= k < n ==> col[k] == col[0]) ==> m.value[r] == col[0])
  {
    var col := Column(Draws(sample, s, n, ids), r);
    MeanWithinSamples(col);
    if forall k :: 0 <= k < n ==> col[k] == col[0] {
      MeanOfEqualSamples(col, col[0]);
    }
  }

  /** With no samples the averaged map is empty. */
  lemma NoSamplesNoFluxes(sample: Sampler, s: ModelState, ids: seq<string>)
    ensures AverageFluxes(sample, s, 0, ids) == Success(map[])
  {
  }

  // ---------------------------------------------------------- classification

  /** Type of a reaction from its mean flux at the low and the high level, or None when excluded. */
  function Classify(low: real, high: real): Option<TargetType>
  {
    if low * high > 0.0 then Some(if Abs(high) > Abs(low) then Up else Down) else None
  }

  /** A reaction is included exactly when both mean fluxes are non-zero and of the same sign. */
  lemma ClassifiedIffSameSign(low: real, high: real)
    ensures Classify(low, high).Some? <==> (low > 0.0 && high > 0.0) || (low < 0.0 && high < 0.0)
  {
    if low > 0.0 && high < 0.0 {
      assert low * high < 0.0;
    } else if low < 0.0 && high > 0.0 {
      assert low * high < 0.0;
    } else if low > 0.0 && high > 0.0 {
      assert low * high > 0.0;
    } else if low < 0.0 && high < 0.0 {
      assert low * high > 0.0;
    }
  }

  /**
   * An included reaction is Up exactly when its flux moves away from zero
   * and Down otherwise (equal magnitudes are Down); Reverse is never produced.
   */
  lemma ClassifyDirection(low: real, high: real)
    ensures Classify(low, high) == Some(Up) <==> (0.0 < low < high) || (high < low < 0.0)
    ensures Classify(low, high) == Some(Down) <==> (0.0 < high <= low) || (low <= high < 0.0)
    ensures Classify(low, high) != Some(Reverse)
  {
    ClassifiedIffSameSign(low, high);
  }

  lemma ClassifyExamples()
    ensures Classify(-2.0, -5.0) == Some(Up) && Abs(-2.0 - -5.0) == 3.0
    ensures Classify(4.0, 1.0) == Some(Down) && Abs(4.0 - 1.0) == 3.0
    ensures Classify(-1.0, 2.0) == None
    ensures Classify(0.0, 2.0) == None
  {
  }

  // ---------------------------------------------------------------- the table

  datatype Record = Record(
    targetType: TargetType,
    reactionId: string,
    reactionName: string,
    meanFluxLow: real,
    meanFluxHigh: real,
    essential: Option<bool>,
    absDiffMeanFluxes: real)

  /** The sort columns: target_type, then abs_diff_mean_fluxes. */
  function RecordKey(rec: Record): SortKey
  {
    SortKey(rec.targetType, rec.absDiffMeanFluxes)
  }

  /** What an analyzer run knows besides the fluxes: the model before the run, its constants, the solver. */
  datatype Context = Context(
    s0: ModelState,
    reactions: map<string, ReactionInfo>,
    setup: Setup,
    solve: ModelState -> SolveOutcome)

  predicate ContextFits(ctx: Context, ids: seq<string>)
  {
    (forall r :: r in ids ==> r in ctx.reactions && r in ctx.s0.bounds) &&
    ctx.setup.productSinkReactionId in ctx.s0.bounds
  }

  /** The essential field of a row: present only when essentiality is checked. */
  function Essentiality(ctx: Context, checkEssentiality: bool, r: string): Option<bool>
    requires r in ctx.s0.bounds
  {
    if checkEssentiality then Some(KnockoutEssential(ctx.s0, ctx.setup, ctx.solve, r)) else None
  }

  /** The rows `run` collects, in reaction order, before sorting. */
  function Rows(ids: seq<string>, ctx: Context, low: map<string, real>, high: map<string, real>,
                checkEssentiality: bool): Result<seq<Record>, RunError>
    requires ContextFits(ctx, ids)
    decreases |ids|
  {
    if |ids| == 0 then Success([])
    else
      var r := ids[|ids| - 1];
      var prev := Rows(ids[..|ids| - 1], ctx, low, high, checkEssentiality);
      if prev.Failure? then prev
      else if r !in low || r !in high then Failure(MissingFlux)
      else match Classify(low[r], high[r])
        case None => prev
        case Some(t) =>
          Success(prev.value + [Record(t, r, ctx.reactions[r].name, low[r], high[r],
                                       Essentiality(ctx, checkEssentiality, r), Abs(low[r] - high[r]))])
  }

  /** A row that `run` may emit for reaction ids among `ids`. */
  predicate RowFits(rec: Record, ids: seq<string>, ctx: Context, low: map<string, real>, high: map<string, real>,
                    checkEssentiality: bool)
    requires ContextFits(ctx, ids)
  {
    var r := rec.reactionId;
    r in ids && r in low && r in high &&
    Classify(low[r], high[r]) == Some(rec.targetType) &&
    rec.reactionName == ctx.reactions[r].name &&
    rec.meanFluxLow == low[r] && rec.meanFluxHigh == high[r] &&
    rec.absDiffMeanFluxes == Abs(low[r] - high[r]) &&
    rec.essential == Essentiality(ctx, checkEssentiality, r)
  }

  /** Every reaction among `ids` has a mean flux at both levels. */
  predicate HasMeans(ids: seq<string>, low: map<string, real>, high: map<string, real>)
  {
    forall r :: r in ids ==> r in low && r in high
  }

  lemma HasMeansSnoc(p: seq<string>, last: string, low: map<string, real>, high: map<string, real>)
    ensures HasMeans(p + [last], low, high) <==> HasMeans(p, low, high) && last in low && last in high
  {
    assert forall r :: r in p + [last] <==> r in p || r == last;
  }

  /** The row loop succeeds exactly when every reaction has both means; otherwise a flux is missing. */
  lemma {:induction false} RowsSucceedIff(ids: seq<string>, ctx: Context, low: map<string, real>,
                                          high: map<string, real>, checkEssentiality: bool)
    requires ContextFits(ctx, ids)
    ensures Rows(ids, ctx, low, high, checkEssentiality).Success? <==> HasMeans(ids, low, high)
    ensures Rows(ids, ctx, low, high, checkEssentiality).Failure? ==>
      Rows(ids, ctx, low, high, checkEssentiality).error == MissingFlux
    decreases |ids|
  {
    if |ids| > 0 {
      var p := ids[..|ids| - 1];
      var last := ids[|ids| - 1];
      assert ids == p + [last];
      RowsSucceedIff(p, ctx, low, high, checkEssentiality);
      HasMeansSnoc(p, last, low, high);
    }
  }

  /** Every row fits: it is a classified reaction with its own fluxes, score and essentiality. */
  lemma {:induction false} RowsSound(ids: seq<string>, ctx: Context, low: map<string, real>,
                                     high: map<string, real>, checkEssentiality: bool)
    requires ContextFits(ctx, ids)
    requires Rows(ids, ctx, low, high, checkEssentiality).Success?
    ensures forall rec :: rec in Rows(ids, ctx, low, high, checkEssentiality).value ==>
      RowFits(rec, ids, ctx, low, high, checkEssentiality)
  {
    if |ids| > 0 {
      var p := ids[..|ids| - 1];
      RowsSound(p, ctx, low, high, checkEssentiality);
      assert forall r :: r in p ==> r in ids;
    }
  }

  /** Every classified reaction has a row. */
  lemma {:induction false} RowsComplete(ids: seq<string>, ctx: Context, low: map<string, real>,
                                        high: map<string, real>, checkEssentiality: bool, r: string)
    requires ContextFits(ctx, ids)
    requires Rows(ids, ctx, low, high, checkEssentiality).Success?
    requires r in ids && r in low && r in high && Classify(low[r], high[r]).Some?
    ensures exists rec :: rec in Rows(ids, ctx, low, high, checkEssentiality).value && rec.reactionId == r
  {
    var p := ids[..|ids| - 1];
    var last := ids[|ids| - 1];
    assert ids == p + [last];
    var rows := Rows(ids, ctx, low, high, checkEssentiality).value;
    if r == last {
      assert rows[|rows| - 1].reactionId == r;
    } else {
      assert r in p;
      RowsComplete(p, ctx, low, high, checkEssentiality, r);
      var rec :| rec in Rows(p, ctx, low, high, checkEssentiality).value && rec.reactionId == r;
      assert rec in rows;
    }
  }

  predicate DistinctRecords(rows: seq<Record>)
  {
    forall i, j :: 0 <= i < j < |rows| ==> rows[i].reactionId != rows[j].reactionId
  }

  /** Over distinct reaction ids, no two rows share a reaction id. */
  lemma {:induction false} RowsDistinct(ids: seq<string>, ctx: Context, low: map<string, real>,
                                        high: map<string, real>, checkEssentiality: bool)
    requires ContextFits(ctx, ids)
    requires Distinct(ids)
    requires Rows(ids, ctx, low, high, checkEssentiality).Success?
    ensures DistinctRecords(Rows(ids, ctx, low, high, checkEssentiality).value)
  {
    if |ids| > 0 {
      var p := ids[..|ids| - 1];
      var last := ids[|ids| - 1];
      assert forall r :: r in p ==> r in ids;
      assert Distinct(p);
      assert last !in p;
      RowsDistinct(p, ctx, low, high, checkEssentiality);
      RowsSound(p, ctx, low, high, checkEssentiality);
      var prev := Rows(p, ctx, low, high, checkEssentiality).value;
      var rows := Rows(ids, ctx, low, high, checkEssentiality).value;
      assert rows == prev || (rows == prev + [rows[|rows| - 1]] && rows[|rows| - 1].reactionId == last);
      forall i, j | 0 <= i < j < |rows| ensures rows[i].reactionId != rows[j].reactionId {
        assert rows[i] == prev[i];
        if j < |prev| {
          assert rows[j] == prev[j];
        } else {
          assert prev[i] in prev;
        }
      }
    }
  }

  /** The forced lower bound on the sink at fraction f of the maximal product yield. */
  function Level(setup: Setup, fraction: real): real
  {
    setup.productMaxTheoreticalYield * fraction
  }

  /** The state each `with model:` block of `run` samples. */
  function ForcedLevel(s0: ModelState, setup: Setup, fraction: real): ModelState
    requires setup.productSinkReactionId in s0.bounds
  {
    ForcedState(s0, setup.biomassReactionId, setup.productSinkReactionId, Level(setup, fraction))
  }

  /** The table `run` returns, from the model state before the run. */
  function RunSpec(ctx: Context, ids: seq<string>, fractionLow: real, fractionHigh: real,
                   checkEssentiality: bool, n: nat, sample: Sampler): Result<seq<Record>, RunError>
    requires ContextFits(ctx, ids)
  {
    var low :- AverageFluxes(sample, ForcedLevel(ctx.s0, ctx.setup, fractionLow), n, ids);
    var high :- AverageFluxes(sample, ForcedLevel(ctx.s0, ctx.setup, fractionHigh), n, ids);
    var rows :- Rows(ids, ctx, low, high, checkEssentiality);
    if |rows| == 0 then Failure(NoTargets) else Success(SortByKey(rows, RecordKey))
  }

  /** A ranked run holds the same rows as the row loop, each as often. */
  lemma RunRanksRows(ctx: Context, ids: seq<string>, fractionLow: real, fractionHigh: real,
                     checkEssentiality: bool, n: nat, sample: Sampler)
    requires ContextFits(ctx, ids)
    requires RunSpec(ctx, ids, fractionLow, fractionHigh, checkEssentiality, n, sample).Success?
    ensures var low := AverageFluxes(sample, ForcedLevel(ctx.s0, ctx.setup, fractionLow), n, ids);
      var high := AverageFluxes(sample, ForcedLevel(ctx.s0, ctx.setup, fractionHigh), n, ids);
      var out := RunSpec(ctx, ids, fractionLow, fractionHigh, checkEssentiality, n, sample).value;
      low.Success? && high.Success? &&
      Rows(ids, ctx, low.value, high.value, checkEssentiality).Success? &&
      multiset(out) == multiset(Rows(ids, ctx, low.value, high.value, checkEssentiality).value) &&
      |out| > 0 && SortedBy(out, RecordKey)
  {
  }

  /** Over a model's distinct reaction ids, a successful run has one row per classified reaction. */
  lemma RunRowsOnce(ctx: Context, ids: seq<string>, fractionLow: real, fractionHigh: real,
                    checkEssentiality: bool, n: nat, sample: Sampler)
    requires ContextFits(ctx, ids)
    requires Distinct(ids)
    requires RunSpec(ctx, ids, fractionLow, fractionHigh, checkEssentiality, n, sample).Success?
    ensures DistinctRecords(RunSpec(ctx, ids, fractionLow, fractionHigh, checkEssentiality, n, sample).value)
  {
    var low := AverageFluxes(sample, ForcedLevel(ctx.s0, ctx.setup, fractionLow), n, ids).value;
    var high := AverageFluxes(sample, ForcedLevel(ctx.s0, ctx.setup, fractionHigh), n, ids).value;
    var out := RunSpec(ctx, ids, fractionLow, fractionHigh, checkEssentiality, n, sample).value;
    RunRanksRows(ctx, ids, fractionLow, fractionHigh, checkEssentiality, n, sample);
    var rows := Rows(ids, ctx, low, high, checkEssentiality).value;
    RowsDistinct(ids, ctx, low, high, checkEssentiality);
    RankingKeepsIdsDistinct(rows, out, (rec: Record) => rec.reactionId);
  }

  /**
   * The rows of a successful run are exactly the classified reactions, each
   * with its two mean fluxes, its score |low - high| and an essential field
   * present exactly when essentiality is checked.
   */
  lemma RunRowsAreTargets(ctx: Context, ids: seq<string>, fractionLow: real, fractionHigh: real,
                          checkEssentiality: bool, n: nat, sample: Sampler)
    requires ContextFits(ctx, ids)
    requires RunSpec(ctx, ids, fractionLow, fractionHigh, checkEssentiality, n, sample).Success?
    ensures var low := AverageFluxes(sample, ForcedLevel(ctx.s0, ctx.setup, fractionLow), n, ids);
      var high := AverageFluxes(sample, ForcedLevel(ctx.s0, ctx.setup, fractionHigh), n, ids);
      var out := RunSpec(ctx, ids, fractionLow, fractionHigh, checkEssentiality, n, sample).value;
      low.Success? && high.Success? &&
      (forall rec :: rec in out ==>
        RowFits(rec, ids, ctx, low.value, high.value, checkEssentiality) &&
        (rec.essential.Some? <==> checkEssentiality)) &&
      (forall r :: r in ids ==>
        (Classify(low.value[r], high.value[r]).Some? <==> exists rec :: rec in out && rec.reactionId == r))
  {
    var low := AverageFluxes(sample, ForcedLevel(ctx.s0, ctx.setup, fractionLow), n, ids).value;
    var high := AverageFluxes(sample, ForcedLevel(ctx.s0, ctx.setup, fractionHigh), n, ids).value;
    var rows := Rows(ids, ctx, low, high, checkEssentiality).value;
    var out := SortByKey(rows, RecordKey);
    RowsSucceedIff(ids, ctx, low, high, checkEssentiality);
    RowsSound(ids, ctx, low, high, checkEssentiality);
    assert forall rec :: rec in out <==> rec in rows by {
      assert multiset(out) == multiset(rows);
      forall rec ensures rec in out <==> rec in rows {
        assert rec in out <==> rec in multiset(out);
        assert rec in rows <==> rec in multiset(rows);
      }
    }
    forall r | r in ids
      ensures Classify(low[r], high[r]).Some? <==> exists rec :: rec in out && rec.reactionId == r
    {
      if Classify(low[r], high[r]).Some? {
        RowsComplete(ids, ctx, low, high, checkEssentiality, r);
      }
    }
  }

  /** A successful run holds only Up and Down rows: FSEOF-FS never calls a reaction Reverse. */
  lemma RunHasNoReverse(ctx: Context, ids: seq<string>, fractionLow: real, fractionHigh: real,
                        checkEssentiality: bool, n: nat, sample: Sampler)
    requires ContextFits(ctx, ids)
    requires RunSpec(ctx, ids, fractionLow, fractionHigh, checkEssentiality, n, sample).Success?
    ensures var out := RunSpec(ctx, ids, fractionLow, fractionHigh, checkEssentiality, n, sample).value;
      forall i :: 0 <= i < |out| ==> out[i].targetType == Up || out[i].targetType == Down
  {
    var low := AverageFluxes(sample, ForcedLevel(ctx.s0, ctx.setup, fractionLow), n, ids).value;
    var high := AverageFluxes(sample, ForcedLevel(ctx.s0, ctx.setup, fractionHigh), n, ids).value;
    var out := RunSpec(ctx, ids, fractionLow, fractionHigh, checkEssentiality, n, sample).value;
    RunRowsAreTargets(ctx, ids, fractionLow, fractionHigh, checkEssentiality, n, sample);
    forall i | 0 <= i < |out| ensures out[i].targetType == Up || out[i].targetType == Down {
      assert out[i] in out;
      assert RowFits(out[i], ids, ctx, low, high, checkEssentiality);
      ClassifyDirection(low[out[i].reactionId], high[out[i].reactionId]);
    }
  }

  /**
   * A successful run lists every Up row before every Down row, with a
   * non-increasing score inside a type.
   */
  lemma RunIsRanked(ctx: Context, ids: seq<string>, fractionLow: real, fractionHigh: real,
                    checkEssentiality: bool, n: nat, sample: Sampler)
    requires ContextFits(ctx, ids)
    requires RunSpec(ctx, ids, fractionLow, fractionHigh, checkEssentiality, n, sample).Success?
    ensures var out := RunSpec(ctx, ids, fractionLow, fractionHigh, checkEssentiality, n, sample).value;
      (forall i, j :: 0 <= i < j < |out| && out[i].targetType == Down ==> out[j].targetType == Down) &&
      (forall i, j :: 0 <= i < j < |out| && out[i].targetType == out[j].targetType ==>
        out[i].absDiffMeanFluxes >= out[j].absDiffMeanFluxes)
  {
    RecordsRanked(RunSpec(ctx, ids, fractionLow, fractionHigh, checkEssentiality, n, sample).value);
  }

  /** Records sorted by (type label, score) form a block per type, Down last, scores non-increasing. */
  lemma RecordsRanked(out: seq<Record>)
    requires SortedBy(out, RecordKey)
    ensures forall i, j :: 0 <= i < j < |out| && out[i].targetType == Down ==> out[j].targetType == Down
    ensures forall i, j :: 0 <= i < j < |out| && out[i].targetType == out[j].targetType ==>
      out[i].absDiffMeanFluxes >= out[j].absDiffMeanFluxes
  {
    forall i, j | 0 <= i < j < |out| ensures Precedes(RecordKey(out[i]), RecordKey(out[j])) {
    }
  }

  /** Without samples no reaction has a mean flux, and the run fails on the first reaction. */
  lemma RunWithoutSamplesFails(ctx: Context, ids: seq<string>, fractionLow: real, fractionHigh: real,
                               checkEssentiality: bool, sample: Sampler)
    requires ContextFits(ctx, ids)
    requires |ids| > 0
    ensures RunSpec(ctx, ids, fractionLow, fractionHigh, checkEssentiality, 0, sample) == Failure(MissingFlux)
  {
    RowsSucceedIff(ids, ctx, map[], map[], checkEssentiality);
    assert ids[0] in ids;
  }

  /** The second loop of `get_average_fluxes_from_n_solutions`: every list replaced by its mean. */
  method MeansOf(fluxList: map<string, seq<real>>, ids: seq<string>) returns (means: map<string, real>)
    requires forall x :: x in fluxList ==> |fluxList[x]| > 0
    ensures forall x :: x in means <==> x in fluxList && x in ids
    ensures forall x :: x in means ==> means[x] == Mean(fluxList[x])
  {
    means := map[];
    for j := 0 to |ids|
      invariant forall x :: x in means <==> x in fluxList && x in ids[..j]
      invariant forall x :: x in means ==> means[x] == Mean(fluxList[x])
    {
      var rid := ids[j];
      assert ids[..j + 1] == ids[..j] + [rid];
      if rid in fluxList {
        var fs := fluxList[rid];
        means := means[rid := Sum(fs) / (|fs| as real)];
      }
    }
    assert ids[..|ids|] == ids;
  }

  /** The draws so far are the first |draws| samples, each successful and covering every reaction. */
  ghost predicate Drawn(sample: Sampler, s: ModelState, ids: seq<string>, draws: seq<map<string, real>>)
  {
    forall q :: 0 <= q < |draws| ==>
      sample(s, q).Optimal? && Covers(sample(s, q).fluxes, ids) && draws[q] == sample(s, q).fluxes
  }

  lemma DrawnSnoc(sample: Sampler, s: ModelState, ids: seq<string>, draws: seq<map<string, real>>,
                  f: map<string, real>)
    requires Drawn(sample, s, ids, draws)
    requires sample(s, |draws|) == Optimal(f) && Covers(f, ids)
    ensures Drawn(sample, s, ids, draws + [f])
  {
    var d := draws + [f];
    forall q | 0 <= q < |d|
      ensures sample(s, q).Optimal? && Covers(sample(s, q).fluxes, ids) && d[q] == sample(s, q).fluxes
    {
      if q < |draws| { assert d[q] == draws[q]; }
    }
  }

  lemma FailedDrawFails(sample: Sampler, s: ModelState, n: nat, ids: seq<string>, k: nat)
    requires k < n
    requires !sample(s, k).Optimal? || !Covers(sample(s, k).fluxes, ids)
    ensures AverageFluxes(sample, s, n, ids) == Failure(SamplingFailed)
  {
  }

  lemma AllDrawn(sample: Sampler, s: ModelState, n: nat, ids: seq<string>, draws: seq<map<string, real>>)
    requires |draws| == n && Drawn(sample, s, ids, draws)
    ensures DrawsSucceed(sample, s, n, ids) && Draws(sample, s, n, ids) == draws
  {
  }

  /** The flux lists hold, per reaction, its column of the draws so far. */
  ghost predicate Collected(fluxList: map<string, seq<real>>, draws: seq<map<string, real>>, ids: seq<string>)
  {
    (forall q, x :: 0 <= q < |draws| && x in ids ==> x in draws[q]) &&
    (forall x :: x in fluxList <==> |draws| > 0 && x in ids) &&
    (forall x :: x in fluxList ==> fluxList[x] == Column(draws, x))
  }

  lemma CollectedSnoc(fluxList: map<string, seq<real>>, draws: seq<map<string, real>>, ids: seq<string>,
                      f: map<string, real>, next: map<string, seq<real>>)
    requires Collected(fluxList, draws, ids)
    requires Covers(f, ids)
    requires forall x :: x in next <==> x in fluxList || x in ids
    requires forall x :: x in ids ==> next[x] == (if x in fluxList then fluxList[x] else []) + [f[x]]
    ensures Collected(next, draws + [f], ids)
  {
    var d := draws + [f];
    forall q, x | 0 <= q < |d| && x in ids ensures x in d[q] {
      if q < |draws| { assert d[q] == draws[q]; }
    }
    forall x | x in next ensures next[x] == Column(d, x) {
      ColumnSnoc(draws, f, x);
    }
  }

  lemma MeansAreMeanFluxes(draws: seq<map<string, real>>, ids: seq<string>, fluxList: map<string, seq<real>>,
                           means: map<string, real>)
    requires Collected(fluxList, draws, ids)
    requires forall x :: x in means <==> x in fluxList && x in ids
    requires forall x :: x in fluxList ==> |fluxList[x]| > 0
    requires forall x :: x in means ==> means[x] == Mean(fluxList[x])
    ensures means == MeanFluxes(draws, ids)
  {
  }

  /**
   * The body of `get_average_fluxes_from_n_solutions(n)`: draws n solutions
   * of a model in state s, collects one flux list per reaction, and replaces
   * each list by its mean.
   */
  method AverageOfSamples(sample: Sampler, s: ModelState, n: nat, ids: seq<string>)
    returns (r: Result<map<string, real>, RunError>)
    requires Distinct(ids)
    ensures r == AverageFluxes(sample, s, n, ids)
  {
    var fluxList: map<string, seq<real>> := map[];
    ghost var draws: seq<map<string, real>> := [];
    for k := 0 to n
      invariant |draws| == k
      invariant Drawn(sample, s, ids, draws)
      invariant Collected(fluxList, draws, ids)
    {
      var sol := sample(s, k);
      if !sol.Optimal? {
        FailedDrawFails(sample, s, n, ids, k);
        return Failure(SamplingFailed);
      }
      var next := AppendSolution(fluxList, ids, sol.fluxes);
      if next.None? {
        FailedDrawFails(sample, s, n, ids, k);
        return Failure(SamplingFailed);
      }
      CollectedSnoc(fluxList, draws, ids, sol.fluxes, next.value);
      DrawnSnoc(sample, s, ids, draws, sol.fluxes);
      fluxList := next.value;
      draws := draws + [sol.fluxes];
    }
    var means := MeansOf(fluxList, ids);
    MeansAreMeanFluxes(draws, ids, fluxList, means);
    AllDrawn(sample, s, n, ids, draws);
    r := Success(means);
  }

  // ------------------------------------------------------------ the analyzer

  class Analyzer {
    const model: Model
    const biomassReactionId: string
    const targetMetaboliteId: string
    const productSinkReactionId: string
    const productMaxTheoreticalYield: real
    const maximalBiomassGrowth: real
    const essentialReactionThreshold: real

    ghost predicate Valid()
      reads model
    {
      model.Valid() && biomassReactionId in model.bounds && productSinkReactionId in model.bounds
    }

    function Constants(): (c: Setup)
      ensures c.biomassReactionId == biomassReactionId
      ensures c.productSinkReactionId == productSinkReactionId
      ensures c.productMaxTheoreticalYield == productMaxTheoreticalYield
      ensures c.maximalBiomassGrowth == maximalBiomassGrowth
      ensures c.essentialReactionThreshold == essentialReactionThreshold
    {
      Setup(biomassReactionId, productSinkReactionId, productMaxTheoreticalYield,
            maximalBiomassGrowth, essentialReactionThreshold)
    }

    constructor (model: Model, biomassReactionId: string, targetMetaboliteId: string,
                 productSinkReactionId: string, productMaxTheoreticalYield: real,
                 maximalBiomassGrowth: real, essentialReactionThreshold: real)
      ensures this.model == model && this.biomassReactionId == biomassReactionId
      ensures this.targetMetaboliteId == targetMetaboliteId
      ensures this.productSinkReactionId == productSinkReactionId
      ensures this.productMaxTheoreticalYield == productMaxTheoreticalYield
      ensures this.maximalBiomassGrowth == maximalBiomassGrowth
      ensures this.essentialReactionThreshold == essentialReactionThreshold
    {
      this.model := model;
      this.biomassReactionId := biomassReactionId;
      this.targetMetaboliteId := targetMetaboliteId;
      this.productSinkReactionId := productSinkReactionId;
      this.productMaxTheoreticalYield := productMaxTheoreticalYield;
      this.maximalBiomassGrowth := maximalBiomassGrowth;
      this.essentialReactionThreshold := essentialReactionThreshold;
    }

    /**
     * `get_average_fluxes_from_n_solutions(n)` on the model as it stands.
     */
    method GetAverageFluxesFromNSolutions(n: nat, sample: Sampler) returns (r: Result<map<string, real>, RunError>)
      requires Valid()
      ensures r == AverageFluxes(sample, model.State(), n, model.reactionIds)
    {
      r := AverageOfSamples(sample, model.State(), n, model.reactionIds);
    }

    /**
     * One `with model:` block of `run`: the objective set to biomass and the
     * sink's lower bound to the given fraction of the maximal product yield,
     * n solutions averaged, and the edits undone on exit.
     */
    method AverageAtLevel(fraction: real, n: nat, sample: Sampler) returns (r: Result<map<string, real>, RunError>)
      requires Valid()
      modifies model`bounds, model`objective
      ensures model.State() == old(model.State())
      ensures r == AverageFluxes(sample, ForcedLevel(old(model.State()), Constants(), fraction), n, model.reactionIds)
    {
      var s0 := model.State();
      model.SetObjective(biomassReactionId);
      model.SetLowerBound(productSinkReactionId, Level(Constants(), fraction));
      r := GetAverageFluxesFromNSolutions(n, sample);
      model.Restore(s0);
    }

    /**
     * The row loop of `run`: one row per reaction whose mean fluxes at the
     * two levels keep their sign, in model order, with the essentiality
     * checked when asked.
     */
    method CollectRows(low: map<string, real>, high: map<string, real>, checkEssentiality: bool,
                       solve: ModelState -> SolveOutcome)
      returns (r: Result<seq<Record>, RunError>)
      requires Valid()
      modifies model`bounds, model`objective
      ensures model.State() == old(model.State())
      ensures r == Rows(model.reactionIds, Context(old(model.State()), model.reactions, Constants(), solve),
                        low, high, checkEssentiality)
    {
      var s0 := model.State();
      var ids := model.reactionIds;
      ghost var ctx := Context(s0, model.reactions, Constants(), solve);
      var dfData: seq<Record> := [];
      for i := 0 to |ids|
        invariant model.State() == s0
        invariant Rows(ids[..i], ctx, low, high, checkEssentiality) == Success(dfData)
      {
        var rid := ids[i];
        assert ids[..i + 1] == ids[..i] + [rid];
        if rid !in low || rid !in high {
          RowsSucceedIff(ids, ctx, low, high, checkEssentiality);
          assert rid in ids;
          return Failure(MissingFlux);
        }
        var t := Classify(low[rid], high[rid]);
        if t.Some? {
          var essential: Option<bool> := None;
          if checkEssentiality {
            assert rid in ids;
            var e := CheckEssentialReaction(model, Constants(), rid, solve);
            essential := Some(e);
          }
          dfData := dfData + [Record(t.value, rid, model.reactions[rid].name, low[rid],
                                     high[rid], essential, Abs(low[rid] - high[rid]))];
        }
      }
      assert ids[..|ids|] == ids;
      r := Success(dfData);
    }

    /**
     * `run`: average the fluxes at the low and at the high forced production
     * level (each inside its own scope), classify every reaction, check the
     * essentiality of each included one when asked, and rank the rows.
     */
    method Run(fractionLow: real := 0.1, fractionHigh: real := 0.2, checkEssentiality: bool := true, n: nat := 100,
               sample: Sampler, solve: ModelState -> SolveOutcome)
      returns (r: Result<seq<Record>, RunError>)
      requires Valid()
      modifies model`bounds, model`objective
      ensures model.State() == old(model.State()) && Valid()
      ensures r == RunSpec(Context(old(model.State()), model.reactions, Constants(), solve),
                           model.reactionIds, fractionLow, fractionHigh, checkEssentiality, n, sample)
    {
      var low := AverageAtLevel(fractionLow, n, sample);
      if low.Failure? {
        return Failure(low.error);
      }
      var high := AverageAtLevel(fractionHigh, n, sample);
      if high.Failure? {
        return Failure(high.error);
      }
      var rows := CollectRows(low.value, high.value, checkEssentiality, solve);
      if rows.Failure? {
        return Failure(rows.error);
      }
      if |rows.value| == 0 {
        return Failure(NoTargets);
      }
      r := Success(SortByKey(rows.value, RecordKey));
    }
  }

  /**
   * `FSEOF_FS(model, biomass_reaction_id, target_metabolite_id, threshold)`:
   * check that both ids exist, add the sink reaction, then probe the maximal
   * product yield and the maximal growth.
   */
  method Init(model: Model, biomassReactionId: string, targetMetaboliteId: string,
              essentialReactionThreshold: real := 0.5, solve: ModelState -> SolveOutcome)
    returns (r: Result<Analyzer, InitError>)
    requires model.Valid()
    modifies model`reactionIds, model`reactions, model`bounds, model`objective
    ensures model.Valid() && model.objective == old(model.objective)
    ensures biomassReactionId !in old(model.reactionIds) ==>
      r == Failure(BiomassNotInModel) && unchanged(model)
    ensures biomassReactionId in old(model.reactionIds) && targetMetaboliteId !in model.metaboliteIds ==>
      r == Failure(TargetNotInModel) && unchanged(model)
    ensures biomassReactionId in old(model.reactionIds) && targetMetaboliteId in model.metaboliteIds ==>
      var sink := SinkReactionId(targetMetaboliteId);
      var maxYield := FluxAtOptimum(solve(ModelState(model.bounds, sink)), sink);
      var growth := FluxAtOptimum(solve(ModelState(model.bounds, biomassReactionId)), biomassReactionId);
      SinkAdded(old(model.reactionIds), old(model.reactions), old(model.bounds), model.reactionIds,
                model.reactions, model.bounds, targetMetaboliteId, sink) &&
      (r.Success? <==> maxYield.Some? && growth.Some?) &&
      (r.Failure? ==> r.error == SolveFailed) &&
      (r.Success? ==>
        fresh(r.value) && r.value.model == model && r.value.Valid() &&
        r.value.biomassReactionId == biomassReactionId &&
        r.value.targetMetaboliteId == targetMetaboliteId &&
        r.value.productSinkReactionId == sink &&
        r.value.productMaxTheoreticalYield == maxYield.value &&
        r.value.maximalBiomassGrowth == growth.value &&
        r.value.essentialReactionThreshold == essentialReactionThreshold)
  {
    var sink := SinkReactionId(targetMetaboliteId);
    var c :- Prepare(model, biomassReactionId, targetMetaboliteId, sink, solve);
    var a := new Analyzer(model, biomassReactionId, targetMetaboliteId, sink, c.productMaxTheoreticalYield,
                          c.maximalBiomassGrowth, essentialReactionThreshold);
    r := Success(a);
  }
}
