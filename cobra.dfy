/**
 * The constraint-based metabolic model the analyzers work on (the cobra
 * `Model` object), reduced to what the analyzers read and edit: the
 * metabolite ids, the reactions in model order with their name, gene rule and
 * stoichiometry, every reaction's flux bounds, and the objective reaction.
 * The solver is not part of the model: its answers are oracle values of the
 * types below.
 */
module Cobra {

  /** Lower and upper flux bound of one reaction. */
  datatype Bounds = Bounds(lower: real, upper: real)

  /** The part of a model that a scoped probe edits and that the solver sees. */
  datatype ModelState = ModelState(bounds: map<string, Bounds>, objective: string)

  /** The fixed attributes of a reaction. */
  datatype ReactionInfo = ReactionInfo(name: string, geneReactionRule: string, metabolites: map<string, real>)

  /** What one loopless optimisation returns: no solution, or a flux per reaction id. */
  datatype SolveOutcome = Infeasible | Optimal(fluxes: map<string, real>)

  /** Minimum and maximum feasible flux of one reaction in a variability analysis. */
  datatype FluxRange = FluxRange(minimum: real, maximum: real)

  /** What one flux variability analysis returns. */
  datatype FvaOutcome = FvaInfeasible | Ranges(ranges: map<string, FluxRange>)

  /** A solution that has a flux for every one of `ids`. */
  predicate Covers(fluxes: map<string, real>, ids: seq<string>)
  {
    forall r :: r in ids ==> r in fluxes
  }

  /** No id occurs twice: the last id is not among the ones before it, and so on down. */
  predicate Distinct(ids: seq<string>)
    decreases |ids|
  {
    |ids| == 0 || (ids[|ids| - 1] !in ids[..|ids| - 1] && Distinct(ids[..|ids| - 1]))
  }

  /** In a distinct sequence no id occurs among the ones before it. */
  lemma {:induction false} DistinctBefore(ids: seq<string>, j: nat)
    requires Distinct(ids)
    requires j < |ids|
    ensures ids[j] !in ids[..j]
    decreases |ids|
  {
    if j < |ids| - 1 {
      var p := ids[..|ids| - 1];
      assert p[j] == ids[j] && p[..j] == ids[..j];
      DistinctBefore(p, j);
    }
  }

  /** `Distinct` says exactly that any two positions hold different ids. */
  lemma {:induction false} DistinctIffPairwise(ids: seq<string>)
    ensures Distinct(ids) <==> forall i, j :: 0 <= i < j < |ids| ==> ids[i] != ids[j]
    decreases |ids|
  {
    if |ids| > 0 {
      var p := ids[..|ids| - 1];
      DistinctIffPairwise(p);
      if Distinct(ids) {
        forall i, j | 0 <= i < j < |ids| ensures ids[i] != ids[j] {
          DistinctBefore(ids, j);
          assert ids[..j][i] == ids[i];
        }
      }
      if forall i, j :: 0 <= i < j < |ids| ==> ids[i] != ids[j] {
        forall i, j | 0 <= i < j < |p| ensures p[i] != p[j] {
          assert p[i] == ids[i] && p[j] == ids[j];
        }
        forall k | 0 <= k < |p| ensures p[k] != ids[|ids| - 1] {
          assert p[k] == ids[k];
        }
      }
    }
  }

  class Model {
    var metaboliteIds: set<string>
    /** `model.reactions`, in model order. */
    var reactionIds: seq<string>
    var reactions: map<string, ReactionInfo>
    var bounds: map<string, Bounds>
    var objective: string

    ghost predicate Valid()
      reads this
    {
      Distinct(reactionIds) &&
      (forall r :: r in reactions <==> r in reactionIds) &&
      bounds.Keys == reactions.Keys
    }

    /** A snapshot of the bounds and the objective: what `with model:` restores on exit. */
    function State(): ModelState
      reads this
    {
      ModelState(bounds, objective)
    }

    /** `model.add_reactions([reaction])`: a reaction whose id is already taken is ignored. */
    method AddReaction(id: string, info: ReactionInfo, b: Bounds)
      requires Valid()
      modifies this`reactionIds, this`reactions, this`bounds
      ensures Valid()
      ensures id in reactions
      ensures id in old(reactions) ==>
        reactionIds == old(reactionIds) && reactions == old(reactions) && bounds == old(bounds)
      ensures id !in old(reactions) ==>
        reactionIds == old(reactionIds) + [id] &&
        reactions == old(reactions)[id := info] &&
        bounds == old(bounds)[id := b]
    {
      if id !in reactions {
        reactionIds := reactionIds + [id];
        reactions := reactions[id := info];
        bounds := bounds[id := b];
      }
    }

    /** `model.objective = id`. */
    method SetObjective(id: string)
      modifies this`objective
      ensures objective == id
    {
      objective := id;
    }

    /** `model.reactions.get_by_id(id).lower_bound = v`. */
    method SetLowerBound(id: string, v: real)
      requires id in bounds
      modifies this`bounds
      ensures bounds == old(bounds)[id := Bounds(v, old(bounds)[id].upper)]
      ensures bounds.Keys == old(bounds).Keys
    {
      bounds := bounds[id := Bounds(v, bounds[id].upper)];
    }

    /** `model.reactions.get_by_id(id).upper_bound = v`. */
    method SetUpperBound(id: string, v: real)
      requires id in bounds
      modifies this`bounds
      ensures bounds == old(bounds)[id := Bounds(old(bounds)[id].lower, v)]
      ensures bounds.Keys == old(bounds).Keys
    {
      bounds := bounds[id := Bounds(bounds[id].lower, v)];
    }

    /** Leaving a `with model:` block: every bound and the objective go back to the snapshot. */
    method Restore(s: ModelState)
      requires s.bounds.Keys == bounds.Keys
      modifies this`bounds, this`objective
      ensures State() == s
      ensures old(Valid()) ==> Valid()
    {
      bounds := s.bounds;
      objective := s.objective;
    }
  }
}
