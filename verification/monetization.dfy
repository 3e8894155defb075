/** The pricing planner: generating a strategy for the chosen idea and applying it. */
module Monetization {
  import opened Wrappers
  import opened Domain
  import opened Selection
  import IdeaStore

  /** The sample strategy shown when the generator throws; it projects 8900 in month 12. */
  const FallbackPricing: PricingStrategy := PricingStrategy(Some(8900), "subscription")

  /** `handleGenerateStrategy`: the new value of the `pricingStrategy` state. */
  function GenerateStrategy(selected: string, ideas: seq<Idea>, current: Option<PricingStrategy>,
                            reply: Result<PricingStrategy>): (r: Option<PricingStrategy>)
    ensures SelectedIdea(selected, ideas).None? ==> r == current
    ensures SelectedIdea(selected, ideas).Some? ==> r.Some?
    ensures SelectedIdea(selected, ideas).Some? && reply.Failure? ==> r == Some(FallbackPricing)
    ensures SelectedIdea(selected, ideas).Some? && reply.Success? ==> r == Some(reply.value)
  {
    var wrapped := match reply
      case Success(s) => Success(Some(s))
      case Failure(e) => Failure(e);
    Generate(selected, ideas, current, wrapped, Some(FallbackPricing))
  }

  /** JavaScript truthiness of `revenue_projections?.month_12`: present and not zero. */
  predicate Truthy(month12: Option<int>) {
    month12.Some? && month12.value != 0
  }

  function Priced(strategy: PricingStrategy): Idea -> Idea {
    (idea: Idea) => idea.(pricingStrategy := Some(strategy),
                          revenue := if Truthy(strategy.month12) then strategy.month12 else idea.revenue)
  }

  /**
   * `applyPricingToIdea`: with an id chosen and a strategy present, every
   * idea with that id gets the strategy, and its revenue potential becomes
   * the month-12 projection unless that is missing or zero. The guard does
   * not look the id up: an id no idea carries changes nothing.
   */
  function ApplyPricing(selected: string, strategy: Option<PricingStrategy>, ideas: seq<Idea>): (r: seq<Idea>)
    ensures selected == [] || strategy.None? ==> r == ideas
    ensures |r| == |ideas|
    ensures forall i :: 0 <= i < |ideas| && !HasId(ideas[i], selected) ==> r[i] == ideas[i]
    ensures strategy.Some? && selected != [] ==> forall i :: 0 <= i < |ideas| && HasId(ideas[i], selected) ==>
      r[i].pricingStrategy == strategy
      && r[i].revenue == (if Truthy(strategy.value.month12) then strategy.value.month12 else ideas[i].revenue)
      && r[i] == ideas[i].(pricingStrategy := strategy, revenue := r[i].revenue)
  {
    if selected == [] || strategy.None? then ideas
    else IdeaStore.UpdateWhere(ideas, selected, Priced(strategy.value))
  }

  /** Applying the same strategy twice is the same as applying it once. */
  lemma ApplyPricingIdempotent(selected: string, strategy: Option<PricingStrategy>, ideas: seq<Idea>)
    ensures ApplyPricing(selected, strategy, ApplyPricing(selected, strategy, ideas))
         == ApplyPricing(selected, strategy, ideas)
  {
    var once := ApplyPricing(selected, strategy, ideas);
    var twice := ApplyPricing(selected, strategy, once);
    assert forall i :: 0 <= i < |ideas| ==> HasId(once[i], selected) == HasId(ideas[i], selected);
    assert forall i :: 0 <= i < |ideas| ==> twice[i] == once[i];
  }

  /**
   * When the generator fails for a chosen idea, applying the sample sets
   * that idea's revenue potential to 8900 and leaves the other ideas alone.
   */
  lemma FallbackSetsRevenue(selected: string, ideas: seq<Idea>, current: Option<PricingStrategy>, error: string, i: nat)
    requires selected != [] && i < |ideas| && HasId(ideas[i], selected)
    ensures ApplyPricing(selected, GenerateStrategy(selected, ideas, current, Failure(error)), ideas)[i].revenue == Some(8900)
  {
    assert SelectedIdea(selected, ideas).Some?;
  }
}
