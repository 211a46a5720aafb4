/**
 * What both analyzers do around a single solve: the model edits a probe makes
 * inside a `with model:` scope, the essentiality decision, the capacity
 * probes and the sink injection. The two source classes carry identical
 * copies of these; the model defines each once.
 */
module Probes {
  import opened Wrappers
  import opened Cobra

  /** The constants an analyzer fixes at construction. */
  datatype Setup = Setup(
    biomassReactionId: string,
    productSinkReactionId: string,
    productMaxTheoreticalYield: real,
    maximalBiomassGrowth: real,
    essentialReactionThreshold: real)

  datatype InitError = BiomassNotInModel | TargetNotInModel | SolveFailed

  /** The two capacities probed at construction. */
  datatype Capacities = Capacities(productMaxTheoreticalYield: real, maximalBiomassGrowth: real)

  /** Upper bound of the sink, the stand-in for "unconstrained". */
  const SinkUpperBound := 1000.0

  /** The sink reaction: one unit of the target metabolite consumed per unit flux, no name, no gene rule. */
  function SinkReaction(targetMetaboliteId: string): (info: ReactionInfo)
    ensures info.metabolites.Keys == {targetMetaboliteId}
    ensures info.metabolites[targetMetaboliteId] == -1.0
  {
    ReactionInfo("", "", map[targetMetaboliteId := -1.0])
  }

  /** A sink reaction's id: the target metabolite's id followed by the analyzer's suffix. */
  function SinkId(targetMetaboliteId: string, suffix: string): string
  {
    targetMetaboliteId + suffix
  }

  /** Under one suffix, different target metabolites never share a sink id. */
  lemma SinkIdInjective(a: string, b: string, suffix: string)
    ensures SinkId(a, suffix) == SinkId(b, suffix) ==> a == b
  {
    if SinkId(a, suffix) == SinkId(b, suffix) {
      assert |a| == |b|;
      assert a == SinkId(a, suffix)[..|a|];
      assert b == SinkId(b, suffix)[..|b|];
    }
  }

  /**
   * The state a forced-production step solves: objective set to biomass and
   * the sink's lower bound set to `level`; nothing else changes.
   */
  function ForcedState(s: ModelState, biomass: string, sink: string, level: real): (t: ModelState)
    requires sink in s.bounds
    ensures t.objective == biomass
    ensures t.bounds.Keys == s.bounds.Keys
    ensures t.bounds[sink].lower == level && t.bounds[sink].upper == s.bounds[sink].upper
    ensures forall r :: r in s.bounds && r != sink ==> t.bounds[r] == s.bounds[r]
  {
    ModelState(s.bounds[sink := Bounds(level, s.bounds[sink].upper)], biomass)
  }

  /**
   * The state an essentiality check solves: objective set to biomass and the
   * checked reaction's bounds set to (0, 0); nothing else changes.
   */
  function Knockout(s: ModelState, biomass: string, rid: string): (t: ModelState)
    requires rid in s.bounds
    ensures t.objective == biomass
    ensures t.bounds.Keys == s.bounds.Keys
    ensures t.bounds[rid] == Bounds(0.0, 0.0)
    ensures forall r :: r in s.bounds && r != rid ==> t.bounds[r] == s.bounds[r]
  {
    ModelState(s.bounds[rid := Bounds(0.0, 0.0)], biomass)
  }

  /** The flux of `id` in a solution, or None when the solve failed or has no such flux. */
  function FluxAtOptimum(o: SolveOutcome, id: string): Option<real>
  {
    match o
    case Infeasible => None
    case Optimal(f) => if id in f then Some(f[id]) else None
  }

  /**
   * `growth / maximal_growth < threshold` on numpy floats: dividing by a zero
   * maximal growth does not raise but yields +inf, -inf or nan, and only -inf
   * (a negative growth) compares below the threshold.
   */
  predicate RatioBelow(growth: real, maxGrowth: real, threshold: real)
  {
    if maxGrowth != 0.0 then growth / maxGrowth < threshold else growth < 0.0
  }

  /**
   * The essentiality decision for the solve of a knocked-out model. Any
   * failure (infeasible, or no biomass flux to read) counts as essential, as
   * the bare `except:` around the solve makes it; otherwise the knockout
   * growth relative to the maximal growth is compared with the threshold.
   */
  function EssentialRule(o: SolveOutcome, biomass: string, maxGrowth: real, threshold: real): bool
  {
    match o
    case Infeasible => true
    case Optimal(f) => biomass !in f || RatioBelow(f[biomass], maxGrowth, threshold)
  }

  /** Whether closing `rid` in a model in state s makes it essential, for an analyzer's constants. */
  function KnockoutEssential(s: ModelState, setup: Setup, solve: ModelState -> SolveOutcome, rid: string): bool
    requires rid in s.bounds
  {
    EssentialRule(solve(Knockout(s, setup.biomassReactionId, rid)), setup.biomassReactionId,
                  setup.maximalBiomassGrowth, setup.essentialReactionThreshold)
  }

  lemma InfeasibleIsEssential(biomass: string, maxGrowth: real, threshold: real)
    ensures EssentialRule(Infeasible, biomass, maxGrowth, threshold)
  {
  }

  /** With a positive maximal growth the ratio test is growth below `threshold` times the maximal growth. */
  lemma EssentialIffBelowThreshold(f: map<string, real>, biomass: string, maxGrowth: real, threshold: real)
    requires maxGrowth > 0.0
    requires biomass in f
    ensures EssentialRule(Optimal(f), biomass, maxGrowth, threshold) <==> f[biomass] < threshold * maxGrowth
  {
    var g := f[biomass];
    var q := g / maxGrowth;
    assert q * maxGrowth == g;
    if q < threshold {
      assert q * maxGrowth < threshold * maxGrowth;
    } else {
      assert q * maxGrowth >= threshold * maxGrowth;
    }
  }

  /** With a zero maximal growth only a negative knockout growth is essential, whatever the threshold. */
  lemma ZeroMaximalGrowth(f: map<string, real>, biomass: string, threshold: real)
    requires biomass in f
    ensures EssentialRule(Optimal(f), biomass, 0.0, threshold) <==> f[biomass] < 0.0
  {
  }

  /** A column of a sequence of flux maps: the flux of `r` in each of them, in order. */
  function Column(rows: seq<map<string, real>>, r: string): (c: seq<real>)
    requires forall k :: 0 <= k < |rows| ==> r in rows[k]
    ensures |c| == |rows|
    ensures forall k :: 0 <= k < |rows| ==> c[k] == rows[k][r]
  {
    seq(|rows|, k requires 0 <= k < |rows| => rows[k][r])
  }

  lemma ColumnSnoc(rows: seq<map<string, real>>, f: map<string, real>, r: string)
    requires forall k :: 0 <= k < |rows| ==> r in rows[k]
    requires r in f
    ensures Column(rows + [f], r) == Column(rows, r) + [f[r]]
  {
  }

  /**
   * A capacity probe: in a scope, make `objectiveId` the objective, solve,
   * and read that reaction's flux; the scope undoes the edit.
   */
  method MaximalFlux(model: Model, objectiveId: string, solve: ModelState -> SolveOutcome)
    returns (v: Option<real>)
    modifies model`objective
    ensures model.State() == old(model.State())
    ensures v == FluxAtOptimum(solve(ModelState(old(model.bounds), objectiveId)), objectiveId)
  {
    var saved := model.State();
    model.SetObjective(objectiveId);
    var sol := solve(model.State());
    v := FluxAtOptimum(sol, objectiveId);
    model.SetObjective(saved.objective);
  }

  /**
   * Registers the sink reaction `sinkId` for the target metabolite with
   * bounds (0, 1000). A reaction with that id already in the model is kept
   * as it is.
   */
  method AddSinkReaction(model: Model, targetMetaboliteId: string, sinkId: string)
    requires model.Valid()
    requires targetMetaboliteId in model.metaboliteIds
    modifies model`reactionIds, model`reactions, model`bounds
    ensures model.Valid()
    ensures sinkId in model.reactions
    ensures sinkId in old(model.reactions) ==>
      model.reactionIds == old(model.reactionIds) &&
      model.reactions == old(model.reactions) &&
      model.bounds == old(model.bounds)
    ensures sinkId !in old(model.reactions) ==>
      model.reactionIds == old(model.reactionIds) + [sinkId] &&
      model.reactions == old(model.reactions)[sinkId := SinkReaction(targetMetaboliteId)] &&
      model.bounds == old(model.bounds)[sinkId := Bounds(0.0, SinkUpperBound)]
  {
    model.AddReaction(sinkId, SinkReaction(targetMetaboliteId), Bounds(0.0, SinkUpperBound));
  }

  /**
   * `check_essential_reaction`: in a scope, make biomass the objective, close
   * the reaction (bounds (0, 0)), solve and apply the essentiality rule; the
   * scope restores every bound and the objective, on failure too.
   */
  method CheckEssentialReaction(model: Model, setup: Setup, rid: string, solve: ModelState -> SolveOutcome)
    returns (essential: bool)
    requires rid in model.bounds
    modifies model`bounds, model`objective
    ensures model.State() == old(model.State())
    ensures essential == KnockoutEssential(old(model.State()), setup, solve, rid)
  {
    var saved := model.State();
    model.SetObjective(setup.biomassReactionId);
    model.SetLowerBound(rid, 0.0);
    model.SetUpperBound(rid, 0.0);
    assert model.State() == Knockout(saved, setup.biomassReactionId, rid);
    var sol := solve(model.State());
    essential := EssentialRule(sol, setup.biomassReactionId, setup.maximalBiomassGrowth,
                               setup.essentialReactionThreshold);
    model.Restore(saved);
  }

  /** The model after the sink reaction `sink` for the target metabolite was registered. */
  ghost predicate SinkAdded(ids0: seq<string>, reactions0: map<string, ReactionInfo>, bounds0: map<string, Bounds>,
                            ids: seq<string>, reactions: map<string, ReactionInfo>, bounds: map<string, Bounds>,
                            targetMetaboliteId: string, sink: string)
  {
    sink in reactions &&
    (sink !in reactions0 ==>
      ids == ids0 + [sink] &&
      reactions == reactions0[sink := SinkReaction(targetMetaboliteId)] &&
      bounds == bounds0[sink := Bounds(0.0, SinkUpperBound)]) &&
    (sink in reactions0 ==> ids == ids0 && reactions == reactions0 && bounds == bounds0)
  }

  /**
   * The constructor of either analyzer up to the field assignments: assert
   * that the biomass reaction and the target metabolite exist, add the sink,
   * then probe the maximal product yield and the maximal growth, each with
   * its own objective in its own scope.
   */
  method Prepare(model: Model, biomassReactionId: string, targetMetaboliteId: string, sink: string,
                 solve: ModelState -> SolveOutcome)
    returns (r: Result<Capacities, InitError>)
    requires model.Valid()
    modifies model`reactionIds, model`reactions, model`bounds, model`objective
    ensures model.Valid() && model.objective == old(model.objective)
    ensures biomassReactionId !in old(model.reactionIds) ==>
      r == Failure(BiomassNotInModel) && unchanged(model)
    ensures biomassReactionId in old(model.reactionIds) && targetMetaboliteId !in model.metaboliteIds ==>
      r == Failure(TargetNotInModel) && unchanged(model)
    ensures biomassReactionId in old(model.reactionIds) && targetMetaboliteId in model.metaboliteIds ==>
      var maxYield := FluxAtOptimum(solve(ModelState(model.bounds, sink)), sink);
      var growth := FluxAtOptimum(solve(ModelState(model.bounds, biomassReactionId)), biomassReactionId);
      SinkAdded(old(model.reactionIds), old(model.reactions), old(model.bounds), model.reactionIds,
                model.reactions, model.bounds, targetMetaboliteId, sink) &&
      (r.Success? <==> maxYield.Some? && growth.Some?) &&
      (r.Failure? ==> r.error == SolveFailed) &&
      (r.Success? ==> r.value == Capacities(maxYield.value, growth.value))
  {
    if biomassReactionId !in model.reactionIds {
      return Failure(BiomassNotInModel);
    }
    if targetMetaboliteId !in model.metaboliteIds {
      return Failure(TargetNotInModel);
    }
    AddSinkReaction(model, targetMetaboliteId, sink);
    var maxYield := MaximalFlux(model, sink, solve);
    if maxYield.None? {
      return Failure(SolveFailed);
    }
    var growth := MaximalFlux(model, biomassReactionId, solve);
    if growth.None? {
      return Failure(SolveFailed);
    }
    r := Success(Capacities(maxYield.value, growth.value));
  }

  /**
   * The inner loop of `get_average_fluxes_from_n_solutions`: append this
   * solution's flux of every reaction to its list, starting a list for a
   * reaction seen for the first time. None when the solution lacks a flux.
   */
  method AppendSolution(fluxList: map<string, seq<real>>, ids: seq<string>, fluxes: map<string, real>)
    returns (r: Option<map<string, seq<real>>>)
    requires Distinct(ids)
    ensures r.Some? <==> Covers(fluxes, ids)
    ensures r.Some? ==> forall x :: x in r.value <==> x in fluxList || x in ids
    ensures r.Some? ==> forall x :: x in ids ==>
      r.value[x] == (if x in fluxList then fluxList[x] else []) + [fluxes[x]]
    ensures r.Some? ==> forall x :: x in fluxList && x !in ids ==> r.value[x] == fluxList[x]
  {
    var acc := fluxList;
    for j := 0 to |ids|
      invariant forall x :: x in ids[..j] ==> x in fluxes
      invariant forall x :: x in acc <==> x in fluxList || x in ids[..j]
      invariant forall x :: x in ids[..j] ==> acc[x] == (if x in fluxList then fluxList[x] else []) + [fluxes[x]]
      invariant forall x :: x in fluxList && x !in ids[..j] ==> acc[x] == fluxList[x]
    {
      var rid := ids[j];
      if rid !in fluxes {
        assert rid in ids;
        return None;
      }
      assert ids[..j + 1] == ids[..j] + [rid];
      DistinctBefore(ids, j);
      if rid in acc {
        acc := acc[rid := acc[rid] + [fluxes[rid]]];
      } else {
        acc := acc[rid := [fluxes[rid]]];
      }
    }
    assert ids[..|ids|] == ids;
    r := Some(acc);
  }
}
