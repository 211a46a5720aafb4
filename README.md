# FSEOF-FS and FVSEOF in Dafny

A verified model of the two strain-design analyzers of the FSEOF-FS
repository. Both take a constraint-based metabolic model, a biomass reaction
and a target metabolite, and look for reactions whose flux changes when
production of the target is forced up. Those reactions are candidate
over-expression targets ("Up") or knock-down targets ("Down", and for
FVSEOF also "Reverse").

- **FSEOF-FS** (`fseof_fs.py`) forces the product sink to two fractions of
  the maximal product yield. At each level it averages the fluxes of `n`
  repeated loopless solves. A reaction is a target when its two mean fluxes
  are non-zero and have the same sign. Rows are ranked by type, then by
  `|mean_low - mean_high|`.
- **FVSEOF** (`fvseof/fvseof.py`) raises the sink's lower bound in `n_steps`
  equal steps from zero towards the maximal yield. At each step it takes one
  flux per reaction: the midpoint of a flux variability range, or a loopless
  FBA flux. A reaction's type comes from its fluxes at the first and last
  step. Rows are ranked by type, then by the magnitude of the slope fitted to
  the reaction's series.

Both constructors check that the biomass reaction and the target metabolite
exist, add a sink reaction for the target with bounds (0, 1000), and probe
the maximal product yield and the maximal growth. Both can also check the
essentiality of every target: a reaction is essential when closing it
stops the solve, or drops growth below a threshold fraction of the maximal
growth.

## Structure

| file | module | content |
|---|---|---|
| `wrappers.dfy` | `Wrappers` | `Option`, `Result` |
| `cobra.dfy` | `Cobra` | the cobra `Model` as a class with the bound, objective and reaction edits the analyzers make; solver outcomes as datatypes |
| `targets.dfy` | `Targets` | target types and their labels; the ranking rule (label descending, then score descending) as an insertion sort proved sorted and a permutation |
| `probes.dfy` | `Probes` | what the two classes share: the sink reaction, scoped capacity probes, the knockout essentiality check, construction up to the field assignments, the append step of a flux-list loop |
| `fseof_fs.dfy` | `FseofFs` | averaging, classification, the row table and the `FSEOF_FS` class |
| `fvseof.dfy` | `Fvseof` | the step schedule, the per-step fluxes, trend classification, slopes, the combined table and the `FVSEOF` class |

Every state-changing operation of the source is a method on the `Model`
object, and is proved against a specification function of the state before
the call:

- `add_product_sink_reaction` and the `with model:` blocks are methods.
- `get_average_fluxes_from_n_solutions` is a method, and so are the step
  loop, the essentiality loop and `run`.
- A `with model:` block is a snapshot of the bounds and the objective
  (`Model.State()`) followed by `Model.Restore`. So every method states
  `model.State() == old(model.State())` on exit, and on early failures too.
  The step loop and the essentiality loop state the stronger
  `unchanged(model)`.

The solvers are parameters:

- `solve: ModelState -> SolveOutcome` for a loopless FBA.
- `FvaOracle` for `flux_variability_analysis`.
- `Sampler` for the k-th of the repeated loopless solves of FSEOF-FS.
- `SlopeFit` for `np.polyfit(x, y, 1)[0]`.

An exception in the source becomes a `Failure` of a `Result`:

- a failed assertion in a constructor;
- a failed solve during construction or during a sweep;
- a missing flux (`KeyError`);
- zero steps (`IndexError` on `[0]`);
- an empty table, which pandas cannot sort by a missing column.

## Model

| member | source | states |
|---|---|---|
| Cobra.Model.AddReaction | fseof_fs.py:61 | adding a reaction keeps the model valid; a new id is appended at the end of the reaction order with its info and bounds; an id already present leaves the model unchanged |
| Cobra.Model.SetObjective | fvseof/fvseof.py:151 | the objective becomes the given reaction |
| Cobra.Model.SetLowerBound | fvseof/fvseof.py:152 | only the lower bound of that reaction changes; its upper bound and every other bound are kept |
| Cobra.Model.SetUpperBound | fvseof/fvseof.py:113 | only the upper bound of that reaction changes; its lower bound and every other bound are kept |
| Cobra.Model.Restore | fvseof/fvseof.py:150 | leaving a `with model:` block puts back the saved bounds and objective of a snapshot over the same reactions, so a well-formed model stays well-formed |
| Targets.RankFollowsLabels | fseof_fs.py:225 | the rank used for sorting orders the types exactly as Python orders their labels "Up", "Reverse", "Down" as strings |
| Targets.Abs | fseof_fs.py:201 | `abs(x)` is non-negative and equal to x or -x |
| Targets.Insert | fseof_fs.py:225 | inserting a row into a sorted table keeps it sorted by (label, score) descending, and adds exactly that row |
| Targets.SortByKey | fvseof/fvseof.py:208 | the ranked table is a permutation of the rows, sorted by type label descending, then by score descending |
| Targets.RankingKeepsIdsDistinct | fvseof/fvseof.py:208 | a permutation of rows with distinct reaction ids has distinct reaction ids, so ranking adds no duplicate row |
| Probes.SinkIdInjective | fseof_fs.py:55 | under one suffix (`_sink` for FSEOF-FS, `_fvseof_sink` for FVSEOF), different target metabolites get different sink ids |
| Probes.SinkReaction | fseof_fs.py:56-60 | the sink consumes one unit of the target metabolite per unit flux, and nothing else |
| Probes.ForcedState | fseof_fs.py:177-178 | a forced-production state has biomass as objective and the sink's lower bound at the level; the sink's upper bound and every other bound are unchanged |
| Probes.Knockout | fseof_fs.py:114-117 | a knockout state has biomass as objective and bounds (0, 0) on the checked reaction; every other bound is unchanged |
| Probes.InfeasibleIsEssential | fseof_fs.py:119-125 | a failed knockout solve makes the reaction essential |
| Probes.EssentialIffBelowThreshold | fseof_fs.py:121-123 | with a positive maximal growth a reaction is essential iff its knockout growth is below threshold × maximal growth |
| Probes.ZeroMaximalGrowth | fseof_fs.py:121 | with a zero maximal growth (numpy division by zero) a reaction is essential iff its knockout growth is negative, whatever the threshold |
| Probes.Column | fseof_fs.py:144-148 | the column of a reaction has one entry per solution, entry k being its flux in solution k |
| Probes.MaximalFlux | fseof_fs.py:80-97 | a capacity probe reads the flux of the objective reaction from a solve with that objective, and restores the model state |
| Probes.AddSinkReaction | fseof_fs.py:55-63 | the sink is in the model afterwards; if it was absent it is appended with the sink stoichiometry and bounds (0, 1000); otherwise nothing changes |
| Probes.CheckEssentialReaction | fseof_fs.py:113-125 | the verdict is the essentiality rule applied to the solve of the knockout state, and the model state is restored |
| Probes.Prepare | fseof_fs.py:28-33 | a missing biomass reaction or target metabolite fails with the model untouched; otherwise the sink is added, and construction succeeds iff both capacity probes succeed, holding their two fluxes |
| Probes.AppendSolution | fseof_fs.py:144-148 | succeeds iff the solution has a flux for every reaction; then each reaction's list is its old list (or a new one) with that flux appended, and no other list changes |
| FseofFs.MeanBetween | fseof_fs.py:151 | a mean of values inside [lo, hi] lies inside [lo, hi] |
| FseofFs.MeanWithinSamples | fseof_fs.py:151 | an averaged flux lies between the smallest and the largest sampled flux |
| FseofFs.MeanOfEqualSamples | fseof_fs.py:151 | n equal samples average to their common value |
| FseofFs.AveragedFluxes | fseof_fs.py:141-153 | with n ≥ 1 successful samples every reaction has exactly one averaged flux: the sum of its n sampled fluxes divided by n, which lies between its extremes and equals the common value of equal samples |
| FseofFs.NoSamplesNoFluxes | fseof_fs.py:141-153 | with n = 0 the averaged map is empty |
| FseofFs.ClassifiedIffSameSign | fseof_fs.py:199 | a reaction is included iff both mean fluxes are non-zero and of the same sign |
| FseofFs.ClassifyDirection | fseof_fs.py:199-205 | an included reaction is Up iff its magnitude grows strictly, Down otherwise (ties included); Reverse is never produced |
| FseofFs.ClassifyExamples | fseof_fs.py:199-205 | concrete cases: a negative flux growing in magnitude is Up, a shrinking one Down, a sign change or a zero excluded |
| FseofFs.RowsSucceedIff | fseof_fs.py:191-193 | the row loop succeeds iff every reaction has a mean flux at both levels, and otherwise fails with a missing flux |
| FseofFs.RowsSound | fseof_fs.py:191-219 | every row is a classified reaction with its name, its two mean fluxes, its score and its essentiality field |
| FseofFs.RowsComplete | fseof_fs.py:191-219 | every classified reaction has a row |
| FseofFs.RowsDistinct | fseof_fs.py:191-219 | over distinct reaction ids, no two rows of the loop share a reaction id |
| FseofFs.RunRanksRows | fseof_fs.py:221-225 | a successful run is a non-empty sorted permutation of the row loop's rows |
| FseofFs.RunRowsAreTargets | fseof_fs.py:176-225 | the rows of a successful run are exactly the classified reactions, each with its mean fluxes at both levels, its score, and an essential field present iff essentiality is checked |
| FseofFs.RunRowsOnce | fseof_fs.py:191-225 | over the model's distinct reaction ids, no two rows of a successful run share a reaction id: one row per classified reaction |
| FseofFs.RunHasNoReverse | fseof_fs.py:199-205 | a successful run holds only Up and Down rows |
| FseofFs.RunIsRanked | fseof_fs.py:224-225 | a successful run lists every Up row before every Down row, with scores non-increasing within a type |
| FseofFs.RecordsRanked | fseof_fs.py:225 | rows sorted by (type label, score) descending put Down last and have scores non-increasing within a type |
| FseofFs.RunWithoutSamplesFails | fseof_fs.py:180-192 | with n = 0 a model with a reaction fails on a missing flux |
| FseofFs.MeansOf | fseof_fs.py:150-151 | every flux list is replaced by its mean, and no other reaction is added |
| FseofFs.AverageOfSamples | fseof_fs.py:141-153 | the sampling loop computes the averaged fluxes of the draws, failing iff one of the n draws fails or lacks a flux |
| FseofFs.Analyzer.constructor | fseof_fs.py:25-35 | the analyzer holds the given model, ids, capacities and threshold |
| FseofFs.Analyzer.GetAverageFluxesFromNSolutions | fseof_fs.py:141-153 | the average of n samples of the model as it stands |
| FseofFs.Analyzer.AverageAtLevel | fseof_fs.py:176-180 | one scoped block of `run`: the average of n samples of the forced state at that fraction of the maximal yield; the model state is restored |
| FseofFs.Analyzer.CollectRows | fseof_fs.py:190-219 | the row loop yields the rows of the specification, in reaction order, each essentiality taken on the state before the run; the model state is restored |
| FseofFs.Analyzer.Run | fseof_fs.py:155-225 | `run` (defaults fraction_low 0.1, fraction_high 0.2, check_essentiality true, n 100) returns the ranked table of the specification computed from the model state before the call, and leaves that state, and the analyzer's validity, as they were |
| FseofFs.Init | fseof_fs.py:10-35 | construction fails on a missing biomass reaction or target metabolite (model untouched) or a failed probe; otherwise the analyzer holds the sink id `<target>_sink`, the probed yield and growth, and the threshold |
| Fvseof.SinkIdsOfTheVariants | fvseof/fvseof.py:51 | the FVSEOF sink for a metabolite differs from the FSEOF-FS sink for it |
| Fvseof.StepLowerBounds | fvseof/fvseof.py:143 | the schedule has n_steps entries |
| Fvseof.StepSchedule | fvseof/fvseof.py:143 | the schedule starts at 0 and climbs by yield / n_steps per step |
| Fvseof.StepScheduleBelowYield | fvseof/fvseof.py:143 | for a positive yield the schedule is strictly increasing and stays in [0, yield) |
| Fvseof.MidpointBetween | fvseof/fvseof.py:157 | the midpoint of a proper variability range lies within it, equally far from both ends |
| Fvseof.StepFluxFromAnalysis | fvseof/fvseof.py:154-161 | in FVA mode a step's flux is the midpoint of the reaction's range at 95% of the optimum; in FBA mode it is the loopless flux |
| Fvseof.Grow | fvseof/fvseof.py:147-161 | growing the series keeps one series per reaction, whose length is the number of steps taken |
| Fvseof.GrowSucceedsIff | fvseof/fvseof.py:147-161 | the series grow iff every step so far gave a flux for every reaction, and otherwise fail with a failed step |
| Fvseof.GrowStep | fvseof/fvseof.py:156-161 | a step with a flux for every reaction extends each series by exactly that flux |
| Fvseof.GrowStopsAt | fvseof/fvseof.py:155-161 | a step without a flux for every reaction fails the sweep with a failed step, whatever follows |
| Fvseof.GrowEntry | fvseof/fvseof.py:156-161 | entry i of a reaction's series is its flux in step i's analysis |
| Fvseof.StepFluxesSucceedIff | fvseof/fvseof.py:148-161 | the sweep succeeds iff the analysis of every step state succeeds with a flux for every reaction |
| Fvseof.StepFluxesAreStepAnalyses | fvseof/fvseof.py:148-161 | after a sweep, a reaction's series has one entry per step, and entry i is its flux in the analysis of step i's forced state |
| Fvseof.ClassifyTrendCases | fvseof/fvseof.py:165-174 | a reaction is typed iff both end fluxes are non-zero; Reverse iff they differ in sign, Up iff the magnitude grows, Down otherwise |
| Fvseof.ClassifyTrendExamples | fvseof/fvseof.py:165-174 | concrete cases of Up, Reverse, Down (equal ends) and an excluded zero |
| Fvseof.TrendsSeeOnlyEndPoints | fvseof/fvseof.py:167-174 | two sweeps with the same first and last fluxes give the same types |
| Fvseof.TrendsSucceed | fvseof/fvseof.py:165-174 | with no empty series exactly the reactions with a trend are typed, with that trend |
| Fvseof.CombinedSound | fvseof/fvseof.py:191-204 | every combined row is a typed reaction with its type, slope, gene rule, series and verdict |
| Fvseof.CombinedComplete | fvseof/fvseof.py:191-204 | every typed reaction has a row |
| Fvseof.CombinedDistinct | fvseof/fvseof.py:191-204 | no two rows share a reaction id |
| Fvseof.TableRowsAreTargets | fvseof/fvseof.py:143-204 | the unranked table has exactly one row per reaction whose series has a trend, with its type from the series' end points, its fitted slope, its gene rule, its verdict when asked and its flux at every step |
| Fvseof.RunRanksTable | fvseof/fvseof.py:206-208 | a successful run is a non-empty sorted permutation of the table |
| Fvseof.RunRowsAreTargets | fvseof/fvseof.py:143-208 | the rows of a successful run are exactly the reactions with a trend, once each, with their series, type, slope, gene rule and verdict |
| Fvseof.OneStepAllDown | fvseof/fvseof.py:143-173 | with n_steps = 1 every row of a successful run is Down, and a reaction has a row iff its single flux is non-zero |
| Fvseof.RunIsRanked | fvseof/fvseof.py:206-208 | a successful run lists Up rows, then Reverse rows, then Down rows, with \|slope\| non-increasing within a type |
| Fvseof.RunWithoutStepsFails | fvseof/fvseof.py:143-167 | with n_steps = 0 a model with a reaction fails: a series has no first flux |
| Fvseof.AssignTargetTypes | fvseof/fvseof.py:165-174 | the classification loop computes the types of the specification, failing iff a series is empty |
| Fvseof.FitSlopes | fvseof/fvseof.py:177-179 | every reaction gets the slope fitted to its series against the schedule |
| Fvseof.CombineRows | fvseof/fvseof.py:191-204 | the combination loop yields the rows of the specification in reaction order |
| Fvseof.Analyzer.constructor | fvseof/fvseof.py:24-34 | the analyzer holds the given model, ids, capacities and threshold |
| Fvseof.Analyzer.AnalyzeStep | fvseof/fvseof.py:150-161 | one scoped step: the analysis of the forced state at step i's lower bound; the model state is restored |
| Fvseof.Analyzer.AdvanceStep | fvseof/fvseof.py:156-161 | one pass of the step loop extends the series exactly as the specification grows them, and fails iff the specification fails |
| Fvseof.Analyzer.CollectStepFluxes | fvseof/fvseof.py:147-161 | the step loop yields the sweep of the specification computed from the state before the run; the model is left exactly as it was |
| Fvseof.Analyzer.CheckEssentialities | fvseof/fvseof.py:182-188 | every typed reaction, and no other, gets the knockout verdict taken on the state before the run; the model is left exactly as it was |
| Fvseof.Analyzer.Run | fvseof/fvseof.py:123-208 | `run` (defaults n_steps 10, check_essentiality false, fva true) returns the ranked table of the specification computed from the model state before the call, and leaves that state, and the analyzer's validity, as they were |
| Fvseof.Init | fvseof/fvseof.py:9-34 | construction fails on a missing biomass reaction or target metabolite (model untouched) or a failed probe; otherwise the analyzer holds the sink id `<target>_fvseof_sink`, the probed yield and growth, and the threshold |

## Reading of the code

The sort order follows the code's `ascending=[False, False]` on the string
labels. Labels sorted descending put "Up" first, then "Reverse", then "Down".
`Targets.RankFollowsLabels` proves that the rank used matches Python's
string order.

`growth / maximal_growth` is a division of numpy floats. A zero maximal
growth therefore yields ±inf or nan instead of raising. For a +0.0 maximal
growth, only a negative knockout growth compares below the threshold. A −0.0
maximal growth would flip the sign of the infinities; reals have no signed
zero, so the model takes the +0.0 case. `Probes.RatioBelow` models
this.

In FVSEOF's classifier, when both end fluxes are non-zero their product is
never zero. So the `>= 0` branch sees a positive product, and the `elif < 0`
branch catches every sign change.

The docstring of FVSEOF's `run` gives `check_essentiality` a default of
True, but the signature gives False. The model follows the signature: its
default is `false`.

## Left out

- Floating point: fluxes are mathematical reals, so rounding, overflow and
  nan are not modelled. The one exception is division by a zero maximal
  growth.
- The solvers (`loopless_solution`, `flux_variability_analysis`) and
  `np.polyfit` are oracle parameters. Linear programming and least squares
  are outside the model.
- `fva_n_processes` is not modelled: it decides only how the variability
  analysis is parallelised.
- `print`, `tqdm` progress bars and `logging` produce output only, and are
  left out.
- pandas DataFrames are sequences of row records:
  - the `step_i` columns of FVSEOF are the row's series;
  - the `reaction_id` index is a field;
  - an absent essentiality column is `None`.
- Reaction and metabolite objects are reduced to the fields the analyzers
  read: id, name, gene rule and stoichiometry.
- Cobra.Model.SetLowerBound: does not model cobra's `ValueError` when a new
  lower bound exceeds the upper bound. In FSEOF-FS this happens when
  yield × fraction exceeds the sink's upper bound of 1000. It also happens in
  the knockout of `check_essential_reaction` (fseof_fs.py:116,
  fvseof/fvseof.py:112): setting `lower_bound = 0` on a reaction whose upper
  bound is negative raises. That line is outside the `try`, so the exception
  aborts the whole run instead of marking the reaction essential.
- Cobra.Model.AddReaction: cobra's warning for a duplicate id is not
  modelled. The model keeps only its effect, which is to ignore the new
  reaction.
- FseofFs.Analyzer.Run: pandas' order among rows with equal sort keys is not
  modelled. The model fixes one order, the insertion sort's. The lemmas about
  the result promise only what the source promises: a sorted permutation
  (`FseofFs.RunRanksRows`) with one row per classified reaction
  (`FseofFs.RunRowsOnce`).
- Fvseof.Analyzer.Run: the same holds for the order among rows with equal
  keys.
- Fvseof.FitSlopes: the slope oracle is total. With n_steps = 1 the step
  list is `[0.0]`, and `np.polyfit` (fvseof/fvseof.py:179) is asked for a
  line through one point. On reading the code (not executed), numpy then most
  likely raises or returns nan. The model returns whatever slope the oracle
  gives, so its one-step run succeeds (`Fvseof.OneStepAllDown`).
- Probes.EssentialRule: any exception inside the `try` counts as essential.
  The model names two: an infeasible solve and a missing biomass flux.
  Solver crashes of other kinds are outside the model.
