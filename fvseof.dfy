/**
 * FVSEOF (fvseof/fvseof.py): the sink's lower bound is raised in n equal
 * steps from zero towards the maximal product yield; at each step a flux
 * variability analysis (its range midpoints) or a loopless FBA gives one
 * flux per reaction. A reaction is a target when its flux at the first and
 * at the last step are both non-zero: Reverse when they differ in sign,
 * otherwise Up or Down by how the magnitude moved. Targets are ranked by
 * type and by the magnitude of the fitted slope.
 */
module Fvseof {
  import opened Wrappers
  import opened Cobra
  import opened Targets
  import opened Probes
  import FseofFs

  const SinkSuffix := "_fvseof_sink"

  /** Id of this variant's sink reaction for a target metabolite. */
  function SinkReactionId(targetMetaboliteId: string): string
  {
    SinkId(targetMetaboliteId, SinkSuffix)
  }

  /**
   * For one metabolite the two analyzers add different sinks, but the ids
   * share no namespace: this variant's sink for "x" is the other's for "x_fvseof".
   */
  lemma SinkIdsOfTheVariants(t: string)
    ensures SinkReactionId(t) != FseofFs.SinkReactionId(t)
    ensures SinkReactionId(t) == FseofFs.SinkReactionId(t + "_fvseof")
  {
    assert |SinkReactionId(t)| == |t| + 12;
    assert |FseofFs.SinkReactionId(t)| == |t| + 5;
  }

  /** `fraction_of_optimum` of every variability analysis. */
  const FractionOfOptimum := 0.95

  /** A flux variability analysis of a model state at a fraction of the optimum. */
  type FvaOracle = (ModelState, real) -> FvaOutcome

  /** `np.polyfit(x, y, 1)[0]`: the slope of the fitted line. */
  type SlopeFit = (seq<real>, seq<real>) -> real

  datatype RunError =
    | StepFailed  // an analysis at a step failed or lacked a reaction's flux
    | NoSteps     // n_steps = 0: a reaction has no first flux to classify
    | NoTargets   // no reaction was classified: the empty table cannot be sorted

  // ------------------------------------------------------------- the schedule

  /** `[n / n_steps * yield for n in range(n_steps)]`. */
  function StepLowerBounds(nSteps: nat, maxYield: real): (steps: seq<real>)
    ensures |steps| == nSteps
  {
    seq(nSteps, i requires 0 <= i < nSteps => (i as real) / (nSteps as real) * maxYield)
  }

  /** The schedule starts at zero and climbs by yield / n_steps per step. */
  lemma StepSchedule(nSteps: nat, maxYield: real)
    requires nSteps > 0
    ensures var steps := StepLowerBounds(nSteps, maxYield);
      steps[0] == 0.0 &&
      (forall i :: 0 <= i < nSteps ==> steps[i] * (nSteps as real) == (i as real) * maxYield) &&
      (forall i :: 0 < i < nSteps ==> steps[i] - steps[i - 1] == maxYield / (nSteps as real))
  {
    var steps := StepLowerBounds(nSteps, maxYield);
    forall i | 0 <= i < nSteps ensures steps[i] * (nSteps as real) == (i as real) * maxYield {
      StepTimesCount(i, nSteps, maxYield);
    }
    forall i | 0 < i < nSteps ensures steps[i] - steps[i - 1] == maxYield / (nSteps as real) {
      StepGap(i, nSteps, maxYield);
    }
  }

  /** For a positive yield the schedule increases strictly and never reaches the yield itself. */
  lemma StepScheduleBelowYield(nSteps: nat, maxYield: real)
    requires maxYield > 0.0
    ensures var steps := StepLowerBounds(nSteps, maxYield);
      (forall i :: 0 <= i < nSteps ==> 0.0 <= steps[i] < maxYield) &&
      (forall i, j :: 0 <= i < j < nSteps ==> steps[i] < steps[j])
  {
    var steps := StepLowerBounds(nSteps, maxYield);
    forall i | 0 <= i < nSteps ensures 0.0 <= steps[i] < maxYield {
      StepBelowYield(i, nSteps, maxYield);
    }
    forall i, j | 0 <= i < j < nSteps ensures steps[i] < steps[j] {
      StepsIncrease(i, j, nSteps, maxYield);
    }
  }

  lemma StepTimesCount(i: nat, nSteps: nat, maxYield: real)
    requires i < nSteps
    ensures StepLowerBounds(nSteps, maxYield)[i] * (nSteps as real) == (i as real) * maxYield
  {
    var n := nSteps as real;
    var q := (i as real) / n;
    assert q * n == i as real;
    calc {
      StepLowerBounds(nSteps, maxYield)[i] * n;
      (q * maxYield) * n;
      (q * n) * maxYield;
    }
  }

  lemma StepGap(i: nat, nSteps: nat, maxYield: real)
    requires 0 < i < nSteps
    ensures StepLowerBounds(nSteps, maxYield)[i] - StepLowerBounds(nSteps, maxYield)[i - 1] ==
      maxYield / (nSteps as real)
  {
    var steps := StepLowerBounds(nSteps, maxYield);
    var n := nSteps as real;
    StepTimesCount(i, nSteps, maxYield);
    StepTimesCount(i - 1, nSteps, maxYield);
    var d := steps[i] - steps[i - 1];
    assert d * n == steps[i] * n - steps[i - 1] * n;
    assert d * n == maxYield;
  }

  lemma StepBelowYield(i: nat, nSteps: nat, maxYield: real)
    requires i < nSteps && maxYield > 0.0
    ensures 0.0 <= StepLowerBounds(nSteps, maxYield)[i] < maxYield
  {
    var n := nSteps as real;
    var q := (i as real) / n;
    assert 0.0 <= q < 1.0;
    assert StepLowerBounds(nSteps, maxYield)[i] == q * maxYield;
    assert q * maxYield < 1.0 * maxYield;
  }

  lemma StepsIncrease(i: nat, j: nat, nSteps: nat, maxYield: real)
    requires i < j < nSteps && maxYield > 0.0
    ensures StepLowerBounds(nSteps, maxYield)[i] < StepLowerBounds(nSteps, maxYield)[j]
  {
    var n := nSteps as real;
    var p := (i as real) / n;
    var q := (j as real) / n;
    assert p < q;
    assert p * maxYield < q * maxYield;
  }

  // ----------------------------------------------------------- one step's fluxes

  /** `(maximum + minimum) / 2` of a variability range. */
  function Midpoint(r: FluxRange): real
  {
    (r.maximum + r.minimum) / 2.0
  }

  /** The midpoint of a proper range lies inside it, equally far from both ends. */
  lemma MidpointBetween(r: FluxRange)
    requires r.minimum <= r.maximum
    ensures r.minimum <= Midpoint(r) <= r.maximum
    ensures Midpoint(r) - r.minimum == r.maximum - Midpoint(r)
  {
  }

  /**
   * The flux per reaction that one step contributes: the range midpoints of
   * a variability analysis at 95% of the optimum, or the fluxes of a loopless
   * solution; None when the analysis fails.
   */
  function StepFluxMap(fva: bool, s: ModelState, fvaOracle: FvaOracle, solve: ModelState -> SolveOutcome)
    : Option<map<string, real>>
  {
    if fva then
      match fvaOracle(s, FractionOfOptimum)
      case FvaInfeasible => None
      case Ranges(m) => Some(map r | r in m :: Midpoint(m[r]))
    else
      match solve(s)
      case Infeasible => None
      case Optimal(f) => Some(f)
  }

  /**
   * In FVA mode a step's flux is the midpoint of the reaction's range, so it
   * lies within the range; in FBA mode it is the loopless solution's flux.
   */
  lemma StepFluxFromAnalysis(fva: bool, s: ModelState, fvaOracle: FvaOracle, solve: ModelState -> SolveOutcome,
                             r: string)
    requires StepFluxMap(fva, s, fvaOracle, solve).Some?
    requires r in StepFluxMap(fva, s, fvaOracle, solve).value
    ensures var v := StepFluxMap(fva, s, fvaOracle, solve).value[r];
      (fva ==> (fvaOracle(s, FractionOfOptimum).Ranges? && r in fvaOracle(s, FractionOfOptimum).ranges &&
                var g := fvaOracle(s, FractionOfOptimum).ranges[r];
                v == Midpoint(g) && (g.minimum <= g.maximum ==> g.minimum <= v <= g.maximum))) &&
      (!fva ==> solve(s).Optimal? && r in solve(s).fluxes && v == solve(s).fluxes[r])
  {
    if fva {
      var g := fvaOracle(s, FractionOfOptimum).ranges[r];
      if g.minimum <= g.maximum {
        MidpointBetween(g);
      }
    }
  }

  // ------------------------------------------------------------------ the sweep

  /** What a run knows besides the schedule: the model before the run, its constants, the analyses. */
  datatype Context = Context(
    s0: ModelState,
    reactions: map<string, ReactionInfo>,
    setup: Setup,
    solve: ModelState -> SolveOutcome,
    fvaOracle: FvaOracle)

  predicate ContextFits(ctx: Context, ids: seq<string>)
  {
    (forall r :: r in ids ==> r in ctx.reactions && r in ctx.s0.bounds) &&
    ctx.setup.productSinkReactionId in ctx.s0.bounds
  }

  /** The state step i analyses: biomass as objective, the sink's lower bound at steps[i]. */
  function StepState(ctx: Context, steps: seq<real>, i: nat): ModelState
    requires ctx.setup.productSinkReactionId in ctx.s0.bounds
    requires i < |steps|
  {
    ForcedState(ctx.s0, ctx.setup.biomassReactionId, ctx.setup.productSinkReactionId, steps[i])
  }

  /** The outcome of each step's analysis, in step order. */
  function StepOutcomes(ctx: Context, steps: seq<real>, fva: bool): (o: seq<Option<map<string, real>>>)
    requires ctx.setup.productSinkReactionId in ctx.s0.bounds
    ensures |o| == |steps|
  {
    seq(|steps|, i requires 0 <= i < |steps| => StepFluxMap(fva, StepState(ctx, steps, i), ctx.fvaOracle, ctx.solve))
  }

  /** A step's analysis succeeded and has a flux for every reaction. */
  predicate Complete(o: Option<map<string, real>>, ids: seq<string>)
  {
    o.Some? && Covers(o.value, ids)
  }

  /**
   * `per_step_fluxes` after the first k steps, grown the way the step loop
   * grows it: each step's flux appended to each reaction's series.
   */
  function Grow(outcomes: seq<Option<map<string, real>>>, ids: seq<string>, k: nat)
    : (r: Result<map<string, seq<real>>, RunError>)
    requires k <= |outcomes|
    ensures r.Success? ==> forall x :: x in r.value <==> x in ids
    ensures r.Success? ==> forall x :: x in ids ==> |r.value[x]| == k
    decreases k
  {
    if k == 0 then Success(map x | x in ids :: [])
    else
      var prev :- Grow(outcomes, ids, k - 1);
      var o := outcomes[k - 1];
      if !Complete(o, ids) then Failure(StepFailed)
      else Success(map x | x in ids :: prev[x] + [o.value[x]])
  }

  /** The series grow exactly when every step so far is complete; otherwise the error is a failed step. */
  lemma {:induction false} GrowSucceedsIff(outcomes: seq<Option<map<string, real>>>, ids: seq<string>, k: nat)
    requires k <= |outcomes|
    ensures Grow(outcomes, ids, k).Success? <==> forall i :: 0 <= i < k ==> Complete(outcomes[i], ids)
    ensures Grow(outcomes, ids, k).Failure? ==> Grow(outcomes, ids, k).error == StepFailed
    decreases k
  {
    if k > 0 {
      GrowSucceedsIff(outcomes, ids, k - 1);
    }
  }

  /** Entry i of a reaction's series is that reaction's flux in step i's analysis. */
  lemma {:induction false} GrowEntry(outcomes: seq<Option<map<string, real>>>, ids: seq<string>, k: nat,
                                     x: string, i: nat)
    requires k <= |outcomes|
    requires Grow(outcomes, ids, k).Success?
    requires x in ids && i < k
    ensures outcomes[i].Some? && x in outcomes[i].value
    ensures Grow(outcomes, ids, k).value[x][i] == outcomes[i].value[x]
    decreases k
  {
    if i < k - 1 {
      GrowEntry(outcomes, ids, k - 1, x, i);
    }
  }

  /** A failed step fails every later prefix of the series. */
  lemma {:induction false} GrowFailsFrom(outcomes: seq<Option<map<string, real>>>, ids: seq<string>, k: nat, m: nat)
    requires k <= m <= |outcomes|
    requires Grow(outcomes, ids, k).Failure?
    ensures Grow(outcomes, ids, m) == Grow(outcomes, ids, k)
    decreases m
  {
    if m > k {
      GrowFailsFrom(outcomes, ids, k, m - 1);
    }
  }

  /** A complete step extends every series by that step's flux. */
  lemma GrowStep(outcomes: seq<Option<map<string, real>>>, ids: seq<string>, i: nat,
                 perStep: map<string, seq<real>>, next: map<string, seq<real>>)
    requires i < |outcomes|
    requires Grow(outcomes, ids, i) == Success(perStep)
    requires Complete(outcomes[i], ids)
    requires forall x :: x in next <==> x in perStep || x in ids
    requires forall x :: x in ids ==> next[x] == perStep[x] + [outcomes[i].value[x]]
    ensures Grow(outcomes, ids, i + 1) == Success(next)
  {
    assert next == map x | x in ids :: perStep[x] + [outcomes[i].value[x]];
  }

  /** An incomplete step fails the sweep with a failed step, whatever follows. */
  lemma GrowStopsAt(outcomes: seq<Option<map<string, real>>>, ids: seq<string>, i: nat, m: nat)
    requires i < m <= |outcomes|
    requires Grow(outcomes, ids, i).Success?
    requires !Complete(outcomes[i], ids)
    ensures Grow(outcomes, ids, m) == Failure(StepFailed)
  {
    GrowFailsFrom(outcomes, ids, i + 1, m);
  }

  /** The step loop of `run`: per reaction, its flux at every step of the schedule. */
  function StepFluxes(ctx: Context, ids: seq<string>, steps: seq<real>, fva: bool)
    : Result<map<string, seq<real>>, RunError>
    requires ctx.setup.productSinkReactionId in ctx.s0.bounds
  {
    Grow(StepOutcomes(ctx, steps, fva), ids, |steps|)
  }

  /**
   * The sweep succeeds exactly when every step's analysis succeeds with a flux
   * for every reaction; otherwise the error is a failed step.
   */
  lemma StepFluxesSucceedIff(ctx: Context, ids: seq<string>, steps: seq<real>, fva: bool)
    requires ctx.setup.productSinkReactionId in ctx.s0.bounds
    ensures StepFluxes(ctx, ids, steps, fva).Success? <==>
      forall i :: 0 <= i < |steps| ==>
        Complete(StepFluxMap(fva, StepState(ctx, steps, i), ctx.fvaOracle, ctx.solve), ids)
    ensures StepFluxes(ctx, ids, steps, fva).Failure? ==> StepFluxes(ctx, ids, steps, fva).error == StepFailed
  {
    var outcomes := StepOutcomes(ctx, steps, fva);
    GrowSucceedsIff(outcomes, ids, |steps|);
    assert forall i :: 0 <= i < |steps| ==>
      outcomes[i] == StepFluxMap(fva, StepState(ctx, steps, i), ctx.fvaOracle, ctx.solve);
  }

  /**
   * After a successful sweep, each reaction's series has one entry per step,
   * and entry i is that reaction's flux in the analysis of step i's state.
   */
  lemma StepFluxesAreStepAnalyses(ctx: Context, ids: seq<string>, steps: seq<real>, fva: bool, r: string, i: nat)
    requires ctx.setup.productSinkReactionId in ctx.s0.bounds
    requires StepFluxes(ctx, ids, steps, fva).Success?
    requires r in ids && i < |steps|
    ensures var series := StepFluxes(ctx, ids, steps, fva).value;
      var o := StepFluxMap(fva, StepState(ctx, steps, i), ctx.fvaOracle, ctx.solve);
      r in series && |series[r]| == |steps| && o.Some? && r in o.value && series[r][i] == o.value[r]
  {
    var outcomes := StepOutcomes(ctx, steps, fva);
    GrowEntry(outcomes, ids, |steps|, r, i);
    assert outcomes[i] == StepFluxMap(fva, StepState(ctx, steps, i), ctx.fvaOracle, ctx.solve);
  }

  // ---------------------------------------------------------- classification

  /**
   * Type of a reaction from its flux at the first and the last step, or None
   * when either is zero.
   */
  function ClassifyTrend(first: real, last: real): Option<TargetType>
  {
    if first != 0.0 && last != 0.0 then
      if first * last >= 0.0 then Some(if Abs(last) > Abs(first) then Up else Down)
      else if first * last < 0.0 then Some(Reverse)
      else None
    else None
  }

  /**
   * A reaction is classified exactly when both end fluxes are non-zero; it is
   * Reverse exactly when they differ in sign, Up when the magnitude grows and
   * Down when it does not.
   */
  lemma ClassifyTrendCases(first: real, last: real)
    ensures ClassifyTrend(first, last).Some? <==> first != 0.0 && last != 0.0
    ensures ClassifyTrend(first, last) == Some(Reverse) <==> (first < 0.0 < last) || (last < 0.0 < first)
    ensures ClassifyTrend(first, last) == Some(Up) <==> (0.0 < first < last) || (last < first < 0.0)
    ensures ClassifyTrend(first, last) == Some(Down) <==> (0.0 < last <= first) || (first <= last < 0.0)
  {
    if first > 0.0 && last < 0.0 {
      assert first * last < 0.0;
    } else if first < 0.0 && last > 0.0 {
      assert first * last < 0.0;
    } else if first > 0.0 && last > 0.0 {
      assert first * last > 0.0;
    } else if first < 0.0 && last < 0.0 {
      assert first * last > 0.0;
    }
  }

  lemma ClassifyTrendExamples()
    ensures ClassifyTrend(1.0, 5.0) == Some(Up)
    ensures ClassifyTrend(-2.0, 3.0) == Some(Reverse)
    ensures ClassifyTrend(4.0, 4.0) == Some(Down)
    ensures ClassifyTrend(0.0, 3.0) == None
  {
  }

  /** The type of a non-empty series: first against last entry. */
  function TrendOf(series: seq<real>): Option<TargetType>
    requires |series| > 0
  {
    ClassifyTrend(series[0], series[|series| - 1])
  }

  /** `target_types`: the type of every classified reaction; NoSteps when a series is empty. */
  function Trends(ids: seq<string>, perStep: map<string, seq<real>>): Result<map<string, TargetType>, RunError>
    requires forall r :: r in ids ==> r in perStep
  {
    if exists r :: r in ids && |perStep[r]| == 0 then Failure(NoSteps)
    else Success(map r | r in ids && TrendOf(perStep[r]).Some? :: TrendOf(perStep[r]).value)
  }

  /** Only the two end points of a series decide its type: the steps between never matter. */
  lemma TrendsSeeOnlyEndPoints(ids: seq<string>, p: map<string, seq<real>>, q: map<string, seq<real>>)
    requires forall r :: r in ids ==> r in p && r in q
    requires forall r :: r in ids ==> |p[r]| > 0 && |q[r]| > 0
    requires forall r :: r in ids ==> p[r][0] == q[r][0] && p[r][|p[r]| - 1] == q[r][|q[r]| - 1]
    ensures Trends(ids, p) == Trends(ids, q)
  {
    TrendsSucceed(ids, p);
    TrendsSucceed(ids, q);
    var tp := Trends(ids, p).value;
    var tq := Trends(ids, q).value;
    assert forall r :: r in ids ==> TrendOf(p[r]) == TrendOf(q[r]);
    assert tp.Keys == tq.Keys;
    assert tp == tq;
  }

  /** With no empty series the classification succeeds and types exactly the reactions with a trend. */
  lemma TrendsSucceed(ids: seq<string>, perStep: map<string, seq<real>>)
    requires forall r :: r in ids ==> r in perStep && |perStep[r]| > 0
    ensures Trends(ids, perStep).Success?
    ensures forall r :: r in Trends(ids, perStep).value <==> r in ids && TrendOf(perStep[r]).Some?
    ensures forall r :: r in Trends(ids, perStep).value ==> Trends(ids, perStep).value[r] == TrendOf(perStep[r]).value
  {
  }

  // ---------------------------------------------------------------- the table

  datatype Row = Row(
    reactionId: string,
    targetType: TargetType,
    slope: real,
    geneReactionRule: string,
    essentiality: Option<bool>,
    steps: seq<real>)

  /** The sort columns: target_type, then the magnitude of the slope. */
  function RowKey(row: Row): SortKey
  {
    SortKey(row.targetType, Abs(row.slope))
  }

  /** `slopes`: the fitted slope of every reaction's series against the schedule. */
  function Slopes(ids: seq<string>, steps: seq<real>, perStep: map<string, seq<real>>, fit: SlopeFit)
    : map<string, real>
    requires forall r :: r in ids ==> r in perStep
  {
    map r | r in ids :: fit(steps, perStep[r])
  }

  /** `essentialities`: the knockout verdict of every classified reaction. */
  function Essentialities(ctx: Context, ids: seq<string>, types: map<string, TargetType>): map<string, bool>
    requires ContextFits(ctx, ids)
  {
    map r | r in ids && r in types :: KnockoutEssential(ctx.s0, ctx.setup, ctx.solve, r)
  }

  /** `df_data` in model order: one row per classified reaction. */
  function Combined(ids: seq<string>, ctx: Context, types: map<string, TargetType>, slopes: map<string, real>,
                    essentialities: Option<map<string, bool>>, perStep: map<string, seq<real>>): seq<Row>
    requires ContextFits(ctx, ids)
    requires forall r :: r in ids ==> r in slopes && r in perStep
    requires essentialities.Some? ==> forall r :: r in ids && r in types ==> r in essentialities.value
    decreases |ids|
  {
    if |ids| == 0 then []
    else
      var r := ids[|ids| - 1];
      var prev := Combined(ids[..|ids| - 1], ctx, types, slopes, essentialities, perStep);
      if r in types then
        prev + [Row(r, types[r], slopes[r], ctx.reactions[r].geneReactionRule,
                    if essentialities.Some? then Some(essentialities.value[r]) else None, perStep[r])]
      else prev
  }

  /** A row that `run` may emit: a classified reaction with its own type, slope, gene rule, series and verdict. */
  predicate RowFits(row: Row, ctx: Context, types: map<string, TargetType>, slopes: map<string, real>,
                    essentialities: Option<map<string, bool>>, perStep: map<string, seq<real>>)
  {
    var r := row.reactionId;
    r in types && r in slopes && r in perStep && r in ctx.reactions &&
    row.targetType == types[r] && row.slope == slopes[r] &&
    row.geneReactionRule == ctx.reactions[r].geneReactionRule && row.steps == perStep[r] &&
    (essentialities.Some? ==> r in essentialities.value && row.essentiality == Some(essentialities.value[r])) &&
    (essentialities.None? ==> row.essentiality == None)
  }

  /** Every row fits and belongs to a reaction among `ids`. */
  lemma {:induction false} CombinedSound(ids: seq<string>, ctx: Context, types: map<string, TargetType>,
                                         slopes: map<string, real>, essentialities: Option<map<string, bool>>,
                                         perStep: map<string, seq<real>>)
    requires ContextFits(ctx, ids)
    requires forall r :: r in ids ==> r in slopes && r in perStep
    requires essentialities.Some? ==> forall r :: r in ids && r in types ==> r in essentialities.value
    ensures forall row :: row in Combined(ids, ctx, types, slopes, essentialities, perStep) ==>
      row.reactionId in ids && RowFits(row, ctx, types, slopes, essentialities, perStep)
  {
    if |ids| > 0 {
      var p := ids[..|ids| - 1];
      assert forall r :: r in p ==> r in ids;
      CombinedSound(p, ctx, types, slopes, essentialities, perStep);
    }
  }

  /** Every classified reaction among `ids` has a row. */
  lemma {:induction false} CombinedComplete(ids: seq<string>, ctx: Context, types: map<string, TargetType>,
                                            slopes: map<string, real>, essentialities: Option<map<string, bool>>,
                                            perStep: map<string, seq<real>>, r: string)
    requires ContextFits(ctx, ids)
    requires forall x :: x in ids ==> x in slopes && x in perStep
    requires essentialities.Some? ==> forall x :: x in ids && x in types ==> x in essentialities.value
    requires r in ids && r in types
    ensures exists row :: row in Combined(ids, ctx, types, slopes, essentialities, perStep) && row.reactionId == r
  {
    var p := ids[..|ids| - 1];
    var last := ids[|ids| - 1];
    assert ids == p + [last];
    var rows := Combined(ids, ctx, types, slopes, essentialities, perStep);
    if r == last {
      assert rows[|rows| - 1].reactionId == r;
    } else {
      assert r in p;
      CombinedComplete(p, ctx, types, slopes, essentialities, perStep, r);
      var row :| row in Combined(p, ctx, types, slopes, essentialities, perStep) && row.reactionId == r;
      assert row in rows;
    }
  }

  predicate DistinctRows(rows: seq<Row>)
  {
    forall i, j :: 0 <= i < j < |rows| ==> rows[i].reactionId != rows[j].reactionId
  }

  /** No two rows share a reaction id. */
  lemma {:induction false} CombinedDistinct(ids: seq<string>, ctx: Context, types: map<string, TargetType>,
                                            slopes: map<string, real>, essentialities: Option<map<string, bool>>,
                                            perStep: map<string, seq<real>>)
    requires ContextFits(ctx, ids)
    requires Distinct(ids)
    requires forall r :: r in ids ==> r in slopes && r in perStep
    requires essentialities.Some? ==> forall r :: r in ids && r in types ==> r in essentialities.value
    ensures DistinctRows(Combined(ids, ctx, types, slopes, essentialities, perStep))
  {
    if |ids| > 0 {
      var p := ids[..|ids| - 1];
      var last := ids[|ids| - 1];
      assert forall r :: r in p ==> r in ids;
      assert Distinct(p);
      assert last !in p;
      CombinedDistinct(p, ctx, types, slopes, essentialities, perStep);
      CombinedSound(p, ctx, types, slopes, essentialities, perStep);
      var prev := Combined(p, ctx, types, slopes, essentialities, perStep);
      var rows := Combined(ids, ctx, types, slopes, essentialities, perStep);
      assert rows == prev || (rows == prev + [rows[|rows| - 1]] && rows[|rows| - 1].reactionId == last);
      forall i, j | 0 <= i < j < |rows| ensures rows[i].reactionId != rows[j].reactionId {
        assert rows[i] == prev[i];
        if j < |prev| {
          assert rows[j] == prev[j];
        } else {
          assert prev[i] in prev;
        }
      }
    }
  }

  // ------------------------------------------------------------------ the run

  /** `df_data` of a run, from the model state before the run: the rows in model order, before ranking. */
  function Table(ctx: Context, ids: seq<string>, nSteps: nat, checkEssentiality: bool, fva: bool, fit: SlopeFit)
    : Result<seq<Row>, RunError>
    requires ContextFits(ctx, ids)
  {
    var steps := StepLowerBounds(nSteps, ctx.setup.productMaxTheoreticalYield);
    var perStep :- StepFluxes(ctx, ids, steps, fva);
    var types :- Trends(ids, perStep);
    var slopes := Slopes(ids, steps, perStep, fit);
    var essentialities := if checkEssentiality then Some(Essentialities(ctx, ids, types)) else None;
    Success(Combined(ids, ctx, types, slopes, essentialities, perStep))
  }

  /** The table `run` returns: the rows ranked; an empty table cannot be sorted. */
  function RunSpec(ctx: Context, ids: seq<string>, nSteps: nat, checkEssentiality: bool, fva: bool, fit: SlopeFit)
    : Result<seq<Row>, RunError>
    requires ContextFits(ctx, ids)
  {
    var rows :- Table(ctx, ids, nSteps, checkEssentiality, fva, fit);
    if |rows| == 0 then Failure(NoTargets) else Success(SortByKey(rows, RowKey))
  }

  /** A failed sweep is the run's error. */
  lemma RunFailsAtSweep(ctx: Context, ids: seq<string>, nSteps: nat, checkEssentiality: bool, fva: bool,
                        fit: SlopeFit)
    requires ContextFits(ctx, ids)
    requires StepFluxes(ctx, ids, StepLowerBounds(nSteps, ctx.setup.productMaxTheoreticalYield), fva).Failure?
    ensures RunSpec(ctx, ids, nSteps, checkEssentiality, fva, fit) ==
      Failure(StepFluxes(ctx, ids, StepLowerBounds(nSteps, ctx.setup.productMaxTheoreticalYield), fva).error)
  {
  }

  /** After a successful sweep, a failed classification is the run's error. */
  lemma RunFailsAtTrends(ctx: Context, ids: seq<string>, nSteps: nat, checkEssentiality: bool, fva: bool,
                         fit: SlopeFit)
    requires ContextFits(ctx, ids)
    requires StepFluxes(ctx, ids, StepLowerBounds(nSteps, ctx.setup.productMaxTheoreticalYield), fva).Success?
    requires forall r :: r in ids ==>
      r in StepFluxes(ctx, ids, StepLowerBounds(nSteps, ctx.setup.productMaxTheoreticalYield), fva).value
    requires Trends(ids, StepFluxes(ctx, ids, StepLowerBounds(nSteps, ctx.setup.productMaxTheoreticalYield), fva).value)
      .Failure?
    ensures RunSpec(ctx, ids, nSteps, checkEssentiality, fva, fit) ==
      Failure(Trends(ids, StepFluxes(ctx, ids, StepLowerBounds(nSteps, ctx.setup.productMaxTheoreticalYield), fva)
        .value).error)
  {
  }

  /** Every classified reaction has a verdict. */
  lemma EssentialitiesCover(ctx: Context, ids: seq<string>, types: map<string, TargetType>)
    requires ContextFits(ctx, ids)
    ensures forall r :: r in ids && r in types ==> r in Essentialities(ctx, ids, types)
  {
  }

  /** When the sweep and the classification succeed, the run ranks the combined rows. */
  lemma RunSpecIs(ctx: Context, ids: seq<string>, nSteps: nat, checkEssentiality: bool, fva: bool, fit: SlopeFit,
                  perStep: map<string, seq<real>>, types: map<string, TargetType>, rows: seq<Row>)
    requires ContextFits(ctx, ids)
    requires StepFluxes(ctx, ids, StepLowerBounds(nSteps, ctx.setup.productMaxTheoreticalYield), fva) == Success(perStep)
    requires forall r :: r in ids ==> r in perStep
    requires Trends(ids, perStep) == Success(types)
    requires rows == Combined(ids, ctx, types,
                              Slopes(ids, StepLowerBounds(nSteps, ctx.setup.productMaxTheoreticalYield), perStep, fit),
                              if checkEssentiality then Some(Essentialities(ctx, ids, types)) else None, perStep)
    ensures RunSpec(ctx, ids, nSteps, checkEssentiality, fva, fit) ==
      if |rows| == 0 then Failure(NoTargets) else Success(SortByKey(rows, RowKey))
  {
  }

  /** The step series, the trend and the verdict a row of a run must carry. */
  predicate RowOfRun(row: Row, ctx: Context, ids: seq<string>, nSteps: nat, checkEssentiality: bool, fva: bool,
                     fit: SlopeFit, sweep: map<string, seq<real>>)
    requires ContextFits(ctx, ids)
  {
    var steps := StepLowerBounds(nSteps, ctx.setup.productMaxTheoreticalYield);
    var r := row.reactionId;
    r in ids && r in sweep && |sweep[r]| == nSteps && nSteps > 0 && row.steps == sweep[r] &&
    TrendOf(sweep[r]) == Some(row.targetType) &&
    row.slope == fit(steps, sweep[r]) &&
    row.geneReactionRule == ctx.reactions[r].geneReactionRule &&
    row.essentiality == (if checkEssentiality then Some(KnockoutEssential(ctx.s0, ctx.setup, ctx.solve, r)) else None)
  }

  /** After a successful sweep every reaction has a series with one entry per step. */
  lemma StepFluxesShape(ctx: Context, ids: seq<string>, steps: seq<real>, fva: bool)
    requires ctx.setup.productSinkReactionId in ctx.s0.bounds
    requires StepFluxes(ctx, ids, steps, fva).Success?
    ensures forall r :: r in StepFluxes(ctx, ids, steps, fva).value <==> r in ids
    ensures forall r :: r in ids ==> |StepFluxes(ctx, ids, steps, fva).value[r]| == |steps|
  {
  }

  /** A successful table is the combination of the sweep's series, their trends, slopes and verdicts. */
  lemma TableIs(ctx: Context, ids: seq<string>, nSteps: nat, checkEssentiality: bool, fva: bool, fit: SlopeFit)
    requires ContextFits(ctx, ids)
    requires Table(ctx, ids, nSteps, checkEssentiality, fva, fit).Success?
    ensures var steps := StepLowerBounds(nSteps, ctx.setup.productMaxTheoreticalYield);
      StepFluxes(ctx, ids, steps, fva).Success? &&
      var perStep := StepFluxes(ctx, ids, steps, fva).value;
      (forall r :: r in ids ==> r in perStep) &&
      Trends(ids, perStep).Success? &&
      var types := Trends(ids, perStep).value;
      Table(ctx, ids, nSteps, checkEssentiality, fva, fit).value ==
        Combined(ids, ctx, types, Slopes(ids, steps, perStep, fit),
                 if checkEssentiality then Some(Essentialities(ctx, ids, types)) else None, perStep)
  {
  }

  /**
   * The unranked table has exactly one row per reaction whose series has a
   * trend: its type from the end points of the series, its fitted slope, its
   * gene rule, its knockout verdict when asked, and its flux at every step.
   */
  lemma TableRowsAreTargets(ctx: Context, ids: seq<string>, nSteps: nat, checkEssentiality: bool, fva: bool,
                            fit: SlopeFit)
    requires ContextFits(ctx, ids)
    requires Distinct(ids) && |ids| > 0
    requires Table(ctx, ids, nSteps, checkEssentiality, fva, fit).Success?
    ensures var steps := StepLowerBounds(nSteps, ctx.setup.productMaxTheoreticalYield);
      var sweep := StepFluxes(ctx, ids, steps, fva);
      var rows := Table(ctx, ids, nSteps, checkEssentiality, fva, fit).value;
      sweep.Success? && nSteps > 0 &&
      (forall row :: row in rows ==> RowOfRun(row, ctx, ids, nSteps, checkEssentiality, fva, fit, sweep.value)) &&
      (forall r :: r in ids ==> (r in sweep.value && |sweep.value[r]| > 0 &&
                                 (TrendOf(sweep.value[r]).Some? <==> exists row :: row in rows && row.reactionId == r))) &&
      DistinctRows(rows)
  {
    var steps := StepLowerBounds(nSteps, ctx.setup.productMaxTheoreticalYield);
    TableIs(ctx, ids, nSteps, checkEssentiality, fva, fit);
    StepFluxesShape(ctx, ids, steps, fva);
    var perStep := StepFluxes(ctx, ids, steps, fva).value;
    var types := Trends(ids, perStep).value;
    var slopes := Slopes(ids, steps, perStep, fit);
    var essentialities := if checkEssentiality then Some(Essentialities(ctx, ids, types)) else None;
    var rows := Combined(ids, ctx, types, slopes, essentialities, perStep);
    assert ids[0] in ids;
    assert !exists r :: r in ids && |perStep[r]| == 0;
    TrendsSucceed(ids, perStep);
    CombinedSound(ids, ctx, types, slopes, essentialities, perStep);
    CombinedDistinct(ids, ctx, types, slopes, essentialities, perStep);
    forall row | row in rows ensures RowOfRun(row, ctx, ids, nSteps, checkEssentiality, fva, fit, perStep) {
      var r := row.reactionId;
      assert RowFits(row, ctx, types, slopes, essentialities, perStep);
      assert types[r] == TrendOf(perStep[r]).value;
    }
    forall r | r in ids ensures TrendOf(perStep[r]).Some? <==> exists row :: row in rows && row.reactionId == r {
      if TrendOf(perStep[r]).Some? {
        CombinedComplete(ids, ctx, types, slopes, essentialities, perStep, r);
      }
    }
  }

  /** A ranked run holds the same rows as the table, each as often. */
  lemma RunRanksTable(ctx: Context, ids: seq<string>, nSteps: nat, checkEssentiality: bool, fva: bool,
                      fit: SlopeFit)
    requires ContextFits(ctx, ids)
    requires RunSpec(ctx, ids, nSteps, checkEssentiality, fva, fit).Success?
    ensures var out := RunSpec(ctx, ids, nSteps, checkEssentiality, fva, fit).value;
      Table(ctx, ids, nSteps, checkEssentiality, fva, fit).Success? &&
      multiset(out) == multiset(Table(ctx, ids, nSteps, checkEssentiality, fva, fit).value) &&
      |out| > 0 && SortedBy(out, RowKey)
  {
  }

  /**
   * A successful run has exactly one row per reaction whose series has a
   * trend, each carrying that reaction's series, type, slope, gene rule and
   * verdict.
   */
  lemma RunRowsAreTargets(ctx: Context, ids: seq<string>, nSteps: nat, checkEssentiality: bool, fva: bool,
                          fit: SlopeFit)
    requires ContextFits(ctx, ids)
    requires Distinct(ids)
    requires RunSpec(ctx, ids, nSteps, checkEssentiality, fva, fit).Success?
    ensures var steps := StepLowerBounds(nSteps, ctx.setup.productMaxTheoreticalYield);
      var sweep := StepFluxes(ctx, ids, steps, fva);
      var out := RunSpec(ctx, ids, nSteps, checkEssentiality, fva, fit).value;
      sweep.Success? && nSteps > 0 &&
      (forall row :: row in out ==> RowOfRun(row, ctx, ids, nSteps, checkEssentiality, fva, fit, sweep.value)) &&
      (forall r :: r in ids ==> (r in sweep.value && |sweep.value[r]| > 0 &&
                                 (TrendOf(sweep.value[r]).Some? <==> exists row :: row in out && row.reactionId == r))) &&
      DistinctRows(out)
  {
    var out := RunSpec(ctx, ids, nSteps, checkEssentiality, fva, fit).value;
    RunRanksTable(ctx, ids, nSteps, checkEssentiality, fva, fit);
    var rows := Table(ctx, ids, nSteps, checkEssentiality, fva, fit).value;
    assert rows[0] in rows;
    if |ids| == 0 {
      TableEmptyWithoutReactions(ctx, ids, nSteps, checkEssentiality, fva, fit);
      assert false;
    }
    TableRowsAreTargets(ctx, ids, nSteps, checkEssentiality, fva, fit);
    assert forall row :: row in out <==> row in rows by {
      forall row ensures row in out <==> row in rows {
        assert row in out <==> row in multiset(out);
        assert row in rows <==> row in multiset(rows);
      }
    }
    RankingKeepsIdsDistinct(rows, out, (row: Row) => row.reactionId);
  }

  /**
   * With a single step the first and last flux of every series coincide:
   * every reaction with a non-zero flux at that step is a Down row, and no
   * other reaction has a row.
   */
  lemma OneStepAllDown(ctx: Context, ids: seq<string>, checkEssentiality: bool, fva: bool, fit: SlopeFit)
    requires ContextFits(ctx, ids)
    requires Distinct(ids)
    requires RunSpec(ctx, ids, 1, checkEssentiality, fva, fit).Success?
    ensures var steps := StepLowerBounds(1, ctx.setup.productMaxTheoreticalYield);
      var sweep := StepFluxes(ctx, ids, steps, fva);
      var out := RunSpec(ctx, ids, 1, checkEssentiality, fva, fit).value;
      sweep.Success? &&
      (forall row :: row in out ==> row.targetType == Down) &&
      (forall r :: r in ids ==>
        r in sweep.value && |sweep.value[r]| == 1 &&
        (sweep.value[r][0] != 0.0 <==> exists row :: row in out && row.reactionId == r))
  {
    var steps := StepLowerBounds(1, ctx.setup.productMaxTheoreticalYield);
    var sweep := StepFluxes(ctx, ids, steps, fva).value;
    var out := RunSpec(ctx, ids, 1, checkEssentiality, fva, fit).value;
    RunRowsAreTargets(ctx, ids, 1, checkEssentiality, fva, fit);
    StepFluxesShape(ctx, ids, steps, fva);
    forall row | row in out ensures row.targetType == Down {
      var series := sweep[row.reactionId];
      ClassifyTrendCases(series[0], series[0]);
    }
    forall r | r in ids ensures sweep[r][0] != 0.0 <==> exists row :: row in out && row.reactionId == r {
      ClassifyTrendCases(sweep[r][0], sweep[r][0]);
    }
  }

  /** Without reactions the table is empty. */
  lemma TableEmptyWithoutReactions(ctx: Context, ids: seq<string>, nSteps: nat, checkEssentiality: bool, fva: bool,
                                   fit: SlopeFit)
    requires ContextFits(ctx, ids)
    requires |ids| == 0
    requires Table(ctx, ids, nSteps, checkEssentiality, fva, fit).Success?
    ensures Table(ctx, ids, nSteps, checkEssentiality, fva, fit).value == []
  {
  }

  /**
   * A successful run lists the Up rows first, then the Reverse rows, then
   * the Down rows, with the slope magnitude non-increasing inside a type.
   */
  lemma RunIsRanked(ctx: Context, ids: seq<string>, nSteps: nat, checkEssentiality: bool, fva: bool,
                    fit: SlopeFit)
    requires ContextFits(ctx, ids)
    requires RunSpec(ctx, ids, nSteps, checkEssentiality, fva, fit).Success?
    ensures var out := RunSpec(ctx, ids, nSteps, checkEssentiality, fva, fit).value;
      (forall i, j :: 0 <= i < j < |out| && out[i].targetType == Reverse ==> out[j].targetType != Up) &&
      (forall i, j :: 0 <= i < j < |out| && out[i].targetType == Down ==> out[j].targetType == Down) &&
      (forall i, j :: 0 <= i < j < |out| && out[i].targetType == out[j].targetType ==>
        Abs(out[i].slope) >= Abs(out[j].slope))
  {
    var out := RunSpec(ctx, ids, nSteps, checkEssentiality, fva, fit).value;
    RunRanksTable(ctx, ids, nSteps, checkEssentiality, fva, fit);
    forall i, j | 0 <= i < j < |out| ensures Precedes(RowKey(out[i]), RowKey(out[j])) {
    }
  }

  /** With zero steps there is no first flux, and any model with a reaction fails. */
  lemma RunWithoutStepsFails(ctx: Context, ids: seq<string>, checkEssentiality: bool, fva: bool, fit: SlopeFit)
    requires ContextFits(ctx, ids)
    requires |ids| > 0
    ensures RunSpec(ctx, ids, 0, checkEssentiality, fva, fit) == Failure(NoSteps)
  {
    var steps := StepLowerBounds(0, ctx.setup.productMaxTheoreticalYield);
    var perStep := StepFluxes(ctx, ids, steps, fva).value;
    assert ids[0] in ids && |perStep[ids[0]]| == 0;
  }

  // ----------------------------------------------------------- loop helpers

  /** The classification loop of `run`. */
  method AssignTargetTypes(ids: seq<string>, perStep: map<string, seq<real>>)
    returns (r: Result<map<string, TargetType>, RunError>)
    requires forall x :: x in ids ==> x in perStep
    ensures r == Trends(ids, perStep)
  {
    var types: map<string, TargetType> := map[];
    for i := 0 to |ids|
      invariant forall x :: x in ids[..i] ==> |perStep[x]| > 0
      invariant forall x :: x in types <==> x in ids[..i] && TrendOf(perStep[x]).Some?
      invariant forall x :: x in types ==> types[x] == TrendOf(perStep[x]).value
    {
      var rid := ids[i];
      assert ids[..i + 1] == ids[..i] + [rid];
      var series := perStep[rid];
      if |series| == 0 {
        assert rid in ids;
        return Failure(NoSteps);
      }
      var t := ClassifyTrend(series[0], series[|series| - 1]);
      if t.Some? {
        types := types[rid := t.value];
      }
    }
    assert ids[..|ids|] == ids;
    TrendsSucceed(ids, perStep);
    assert types == Trends(ids, perStep).value;
    r := Success(types);
  }

  /** The slope loop of `run`. */
  method FitSlopes(ids: seq<string>, steps: seq<real>, perStep: map<string, seq<real>>, fit: SlopeFit)
    returns (slopes: map<string, real>)
    requires forall x :: x in ids ==> x in perStep
    ensures slopes == Slopes(ids, steps, perStep, fit)
  {
    slopes := map[];
    for i := 0 to |ids|
      invariant forall x :: x in slopes <==> x in ids[..i]
      invariant forall x :: x in slopes ==> slopes[x] == fit(steps, perStep[x])
    {
      var rid := ids[i];
      assert ids[..i + 1] == ids[..i] + [rid];
      slopes := slopes[rid := fit(steps, perStep[rid])];
    }
    assert ids[..|ids|] == ids;
  }

  /** The combination loop of `run`. */
  method CombineRows(ids: seq<string>, ctx: Context, types: map<string, TargetType>, slopes: map<string, real>,
                     essentialities: Option<map<string, bool>>, perStep: map<string, seq<real>>)
    returns (rows: seq<Row>)
    requires ContextFits(ctx, ids)
    requires forall r :: r in ids ==> r in slopes && r in perStep
    requires essentialities.Some? ==> forall r :: r in ids && r in types ==> r in essentialities.value
    ensures rows == Combined(ids, ctx, types, slopes, essentialities, perStep)
  {
    rows := [];
    for i := 0 to |ids|
      invariant rows == Combined(ids[..i], ctx, types, slopes, essentialities, perStep)
    {
      var rid := ids[i];
      assert ids[..i + 1] == ids[..i] + [rid];
      assert ids[..i + 1][..i] == ids[..i];
      if rid in types {
        var e: Option<bool> := None;
        if essentialities.Some? {
          e := Some(essentialities.value[rid]);
        }
        rows := rows + [Row(rid, types[rid], slopes[rid], ctx.reactions[rid].geneReactionRule, e, perStep[rid])];
      }
    }
    assert ids[..|ids|] == ids;
  }

  // ------------------------------------------------------------ the analyzer

  class Analyzer {
    const model: Model
    const biomassReactionId: string
    const targetMetaboliteId: string
    const productSinkReactionId: string
    const productMaxTheoreticalYield: real
    const maximalBiomassGrowth: real
    const checkEssentialReactionThreshold: real

    ghost predicate Valid()
      reads model
    {
      model.Valid() && biomassReactionId in model.bounds && productSinkReactionId in model.bounds
    }

    function Constants(): (c: Setup)
      ensures c.biomassReactionId == biomassReactionId
      ensures c.productSinkReactionId == productSinkReactionId
      ensures c.productMaxTheoreticalYield == productMaxTheoreticalYield
      ensures c.maximalBiomassGrowth == maximalBiomassGrowth
      ensures c.essentialReactionThreshold == checkEssentialReactionThreshold
    {
      Setup(biomassReactionId, productSinkReactionId, productMaxTheoreticalYield,
            maximalBiomassGrowth, checkEssentialReactionThreshold)
    }

    constructor (model: Model, biomassReactionId: string, targetMetaboliteId: string,
                 productSinkReactionId: string, productMaxTheoreticalYield: real,
                 maximalBiomassGrowth: real, checkEssentialReactionThreshold: real)
      ensures this.model == model && this.biomassReactionId == biomassReactionId
      ensures this.targetMetaboliteId == targetMetaboliteId
      ensures this.productSinkReactionId == productSinkReactionId
      ensures this.productMaxTheoreticalYield == productMaxTheoreticalYield
      ensures this.maximalBiomassGrowth == maximalBiomassGrowth
      ensures this.checkEssentialReactionThreshold == checkEssentialReactionThreshold
    {
      this.model := model;
      this.biomassReactionId := biomassReactionId;
      this.targetMetaboliteId := targetMetaboliteId;
      this.productSinkReactionId := productSinkReactionId;
      this.productMaxTheoreticalYield := productMaxTheoreticalYield;
      this.maximalBiomassGrowth := maximalBiomassGrowth;
      this.checkEssentialReactionThreshold := checkEssentialReactionThreshold;
    }

    /** The run context `ctx` was taken from this analyzer's model in its present state. */
    ghost predicate StateOf(ctx: Context, solve: ModelState -> SolveOutcome, fvaOracle: FvaOracle)
      reads model
    {
      ctx.s0 == model.State() && ctx.setup == Constants() && ctx.solve == solve && ctx.fvaOracle == fvaOracle
    }

    /**
     * One `with model:` block of the step loop: biomass as objective, the
     * sink's lower bound at step i's value, one analysis, edits undone.
     */
    method AnalyzeStep(ghost ctx: Context, steps: seq<real>, i: nat, fva: bool, fvaOracle: FvaOracle,
                       solve: ModelState -> SolveOutcome)
      returns (o: Option<map<string, real>>)
      requires productSinkReactionId in model.bounds && StateOf(ctx, solve, fvaOracle)
      requires i < |steps|
      modifies model`bounds, model`objective
      ensures model.State() == old(model.State())
      ensures o == StepFluxMap(fva, StepState(ctx, steps, i), ctx.fvaOracle, ctx.solve)
    {
      var s0 := model.State();
      model.SetObjective(biomassReactionId);
      model.SetLowerBound(productSinkReactionId, steps[i]);
      StepStateReached(model.State(), ctx, steps, i);
      o := StepFluxMap(fva, model.State(), fvaOracle, solve);
      model.Restore(s0);
    }

    /**
     * One pass of the step loop: analyse step i and append each reaction's
     * flux to its series; None when the step's analysis fails.
     */
    method AdvanceStep(ghost ctx: Context, ghost outcomes: seq<Option<map<string, real>>>, steps: seq<real>,
                       i: nat, fva: bool, fvaOracle: FvaOracle, solve: ModelState -> SolveOutcome,
                       ids: seq<string>, perStep: map<string, seq<real>>)
      returns (next: Option<map<string, seq<real>>>)
      requires productSinkReactionId in model.bounds && StateOf(ctx, solve, fvaOracle) && Distinct(ids)
      requires i < |steps| && outcomes == StepOutcomes(ctx, steps, fva)
      requires Grow(outcomes, ids, i) == Success(perStep)
      modifies model`bounds, model`objective
      ensures model.State() == old(model.State())
      ensures next.None? ==> Grow(outcomes, ids, |steps|) == Failure(StepFailed)
      ensures next.Some? ==> Grow(outcomes, ids, i + 1) == Success(next.value)
    {
      var o := AnalyzeStep(ctx, steps, i, fva, fvaOracle, solve);
      assert o == outcomes[i];
      if o.None? {
        GrowStopsAt(outcomes, ids, i, |steps|);
        return None;
      }
      next := AppendSolution(perStep, ids, o.value);
      if next.Some? {
        GrowStep(outcomes, ids, i, perStep, next.value);
      } else {
        GrowStopsAt(outcomes, ids, i, |steps|);
      }
    }

    /** The step loop of `run`: one flux per reaction and step, appended to that reaction's series. */
    method CollectStepFluxes(ghost ctx: Context, steps: seq<real>, fva: bool, fvaOracle: FvaOracle,
                             solve: ModelState -> SolveOutcome)
      returns (r: Result<map<string, seq<real>>, RunError>)
      requires productSinkReactionId in model.bounds && StateOf(ctx, solve, fvaOracle)
      requires Distinct(model.reactionIds)
      modifies model`bounds, model`objective
      ensures unchanged(model)
      ensures r == StepFluxes(ctx, model.reactionIds, steps, fva)
    {
      var ids := model.reactionIds;
      ghost var outcomes := StepOutcomes(ctx, steps, fva);
      var perStep: map<string, seq<real>> := map x | x in ids :: [];
      for i := 0 to |steps|
        invariant productSinkReactionId in model.bounds && StateOf(ctx, solve, fvaOracle)
        invariant Grow(outcomes, ids, i) == Success(perStep)
      {
        var next := AdvanceStep(ctx, outcomes, steps, i, fva, fvaOracle, solve, ids, perStep);
        if next.None? {
          return Failure(StepFailed);
        }
        perStep := next.value;
      }
      r := Success(perStep);
    }

    /** The essentiality loop of `run`: each classified reaction knocked out in its own scope. */
    method CheckEssentialities(ghost ctx: Context, types: map<string, TargetType>, solve: ModelState -> SolveOutcome)
      returns (essentialities: map<string, bool>)
      requires ctx.s0 == model.State() && ctx.setup == Constants() && ctx.solve == solve
      requires ContextFits(ctx, model.reactionIds)
      modifies model`bounds, model`objective
      ensures unchanged(model)
      ensures essentialities == Essentialities(ctx, model.reactionIds, types)
    {
      var s0 := model.State();
      var ids := model.reactionIds;
      essentialities := map[];
      for i := 0 to |ids|
        invariant model.State() == s0
        invariant forall x :: x in essentialities <==> x in ids[..i] && x in types
        invariant forall x :: x in essentialities ==> x in s0.bounds
        invariant forall x :: x in essentialities ==> essentialities[x] == KnockoutEssential(s0, Constants(), solve, x)
      {
        var rid := ids[i];
        assert ids[..i + 1] == ids[..i] + [rid];
        if rid in types {
          assert rid in ids;
          var e := CheckEssentialReaction(model, Constants(), rid, solve);
          essentialities := essentialities[rid := e];
        }
      }
      assert ids[..|ids|] == ids;
    }

    /**
     * `run`: sweep the schedule, classify every reaction by the end points of
     * its series, fit the slopes, check the essentiality of each classified
     * reaction when asked, and rank the rows.
     */
    method Run(nSteps: nat := 10, checkEssentiality: bool := false, fva: bool := true, fvaOracle: FvaOracle,
               solve: ModelState -> SolveOutcome, fit: SlopeFit)
      returns (r: Result<seq<Row>, RunError>)
      requires Valid()
      modifies model`bounds, model`objective
      ensures model.State() == old(model.State()) && Valid()
      ensures r == RunSpec(Context(old(model.State()), model.reactions, Constants(), solve, fvaOracle),
                           model.reactionIds, nSteps, checkEssentiality, fva, fit)
    {
      var ctx := Context(model.State(), model.reactions, Constants(), solve, fvaOracle);
      var ids := model.reactionIds;
      var steps := StepLowerBounds(nSteps, productMaxTheoreticalYield);
      var sweep := CollectStepFluxes(ctx, steps, fva, fvaOracle, solve);
      if sweep.Failure? {
        RunFailsAtSweep(ctx, ids, nSteps, checkEssentiality, fva, fit);
        r := Failure(sweep.error);
      } else {
        var perStep := sweep.value;
        StepFluxesShape(ctx, ids, steps, fva);
        var trends := AssignTargetTypes(ids, perStep);
        if trends.Failure? {
          RunFailsAtTrends(ctx, ids, nSteps, checkEssentiality, fva, fit);
          r := Failure(trends.error);
        } else {
          var types := trends.value;
          var slopes := FitSlopes(ids, steps, perStep, fit);
          var essentialities: Option<map<string, bool>> := None;
          if checkEssentiality {
            var e := CheckEssentialities(ctx, types, solve);
            essentialities := Some(e);
          }
          EssentialitiesCover(ctx, ids, types);
          var rows := CombineRows(ids, ctx, types, slopes, essentialities, perStep);
          RunSpecIs(ctx, ids, nSteps, checkEssentiality, fva, fit, perStep, types, rows);
          r := if |rows| == 0 then Failure(NoTargets) else Success(SortByKey(rows, RowKey));
        }
      }
    }
  }

  lemma StepStateReached(t: ModelState, ctx: Context, steps: seq<real>, i: nat)
    requires ctx.setup.productSinkReactionId in ctx.s0.bounds
    requires i < |steps|
    requires t.objective == ctx.setup.biomassReactionId
    requires t.bounds == ctx.s0.bounds[ctx.setup.productSinkReactionId :=
      Bounds(steps[i], ctx.s0.bounds[ctx.setup.productSinkReactionId].upper)]
    ensures t == StepState(ctx, steps, i)
  {
  }

  /**
   * `FVSEOF(model, biomass_reaction_id, target_metabolite_id, threshold)`:
   * check that both ids exist, add the sink reaction, then probe the maximal
   * product yield and the maximal growth.
   */
  method Init(model: Model, biomassReactionId: string, targetMetaboliteId: string,
              essentialReactionThreshold: real := 0.5, solve: ModelState -> SolveOutcome)
    returns (r: Result<Analyzer, InitError>)
    requires model.Valid()
    modifies model`reactionIds, model`reactions, model`bounds, model`objective
    ensures model.Valid() && model.objective == old(model.objective)
    ensures biomassReactionId !in old(model.reactionIds) ==>
      r == Failure(BiomassNotInModel) && unchanged(model)
    ensures biomassReactionId in old(model.reactionIds) && targetMetaboliteId !in model.metaboliteIds ==>
      r == Failure(TargetNotInModel) && unchanged(model)
    ensures biomassReactionId in old(model.reactionIds) && targetMetaboliteId in model.metaboliteIds ==>
      var sink := SinkReactionId(targetMetaboliteId);
      var maxYield := FluxAtOptimum(solve(ModelState(model.bounds, sink)), sink);
      var growth := FluxAtOptimum(solve(ModelState(model.bounds, biomassReactionId)), biomassReactionId);
      SinkAdded(old(model.reactionIds), old(model.reactions), old(model.bounds), model.reactionIds,
                model.reactions, model.bounds, targetMetaboliteId, sink) &&
      (r.Success? <==> maxYield.Some? && growth.Some?) &&
      (r.Failure? ==> r.error == SolveFailed) &&
      (r.Success? ==>
        fresh(r.value) && r.value.model == model && r.value.Valid() &&
        r.value.biomassReactionId == biomassReactionId &&
        r.value.targetMetaboliteId == targetMetaboliteId &&
        r.value.productSinkReactionId == sink &&
        r.value.productMaxTheoreticalYield == maxYield.value &&
        r.value.maximalBiomassGrowth == growth.value &&
        r.value.checkEssentialReactionThreshold == essentialReactionThreshold)
  {
    var sink := SinkReactionId(targetMetaboliteId);
    var c :- Prepare(model, biomassReactionId, targetMetaboliteId, sink, solve);
    var a := new Analyzer(model, biomassReactionId, targetMetaboliteId, sink, c.productMaxTheoreticalYield,
                          c.maximalBiomassGrowth, essentialReactionThreshold);
    r := Success(a);
  }
}
