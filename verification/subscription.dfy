/**
 * The plan gate of the `useSubscription` hook: the subscription status on
 * the user's profile decides usage limits and feature flags. A limit of -1
 * means unlimited.
 */
module Subscription {
  import opened Wrappers

  /** The part of a user profile the gate reads. */
  datatype Profile = Profile(subscriptionStatus: Option<string>)

  /** `profile?.subscription_status`: absent when there is no profile or no status. */
  function Status(profile: Option<Profile>): Option<string> {
    match profile
    case Some(p) => p.subscriptionStatus
    case None => None
  }

  /** `isPro`: the status is exactly 'pro'. */
  predicate IsPro(profile: Option<Profile>) {
    Status(profile) == Some("pro")
  }

  /** `isFree`: the status is 'free' or falsy (absent or the empty string). */
  predicate IsFree(profile: Option<Profile>) {
    Status(profile) == Some("free") || Status(profile).None? || Status(profile) == Some("")
  }

  /** No profile is both pro and free; a status other than these three is neither. */
  lemma ProAndFreeExclusive(profile: Option<Profile>)
    ensures !(IsPro(profile) && IsFree(profile))
    ensures profile == None ==> IsFree(profile) && !IsPro(profile)
  {
  }

  datatype Features = Features(
    maxIdeas: int,
    maxValidations: int,
    advancedAnalytics: bool,
    exportData: bool,
    prioritySupport: bool,
    curatedNicheLists: bool,
    advancedValidationTools: bool)

  /** A limit value that stands for "no limit". */
  const Unlimited: int := -1

  /** `getFeatures()`: pro gets unlimited counts and every flag; anything else the free plan. */
  function GetFeatures(profile: Option<Profile>): (f: Features)
    ensures IsPro(profile) ==>
              && f.maxIdeas == Unlimited && f.maxValidations == Unlimited
              && f.advancedAnalytics && f.exportData && f.prioritySupport
              && f.curatedNicheLists && f.advancedValidationTools
    ensures !IsPro(profile) ==>
              && f.maxIdeas == 3 && f.maxValidations == 5
              && !f.advancedAnalytics && !f.exportData && !f.prioritySupport
              && !f.curatedNicheLists && !f.advancedValidationTools
  {
    if IsPro(profile) then
      Features(Unlimited, Unlimited, true, true, true, true, true)
    else
      Features(3, 5, false, false, false, false, false)
  }

  /** A count-bounded action is allowed when the limit is -1 or the count is below it. */
  predicate WithinLimit(limit: int, currentCount: int) {
    limit == Unlimited || currentCount < limit
  }

  /** The actions that read a boolean feature flag. */
  predicate FlagAction(action: string) {
    action == "export_data" || action == "advanced_analytics"
    || action == "curated_lists" || action == "advanced_validation"
  }

  /** The action names the gate recognises. */
  predicate KnownAction(action: string) {
    action == "create_idea" || action == "create_validation" || FlagAction(action)
  }

  /**
   * `canPerformAction(action, currentCount = 0)`. The contract states the
   * decision by plan: a free user may create fewer than 3 ideas and fewer
   * than 5 validations and uses no gated feature; unknown actions are allowed.
   */
  function CanPerformAction(profile: Option<Profile>, action: string, currentCount: int := 0): (ok: bool)
    ensures action == "create_idea" ==> (ok <==> IsPro(profile) || currentCount < 3)
    ensures action == "create_validation" ==> (ok <==> IsPro(profile) || currentCount < 5)
    ensures FlagAction(action) ==> (ok <==> IsPro(profile))
    ensures !KnownAction(action) ==> ok
  {
    var f := GetFeatures(profile);
    if action == "create_idea" then WithinLimit(f.maxIdeas, currentCount)
    else if action == "create_validation" then WithinLimit(f.maxValidations, currentCount)
    else if action == "export_data" then f.exportData
    else if action == "advanced_analytics" then f.advancedAnalytics
    else if action == "curated_lists" then f.curatedNicheLists
    else if action == "advanced_validation" then f.advancedValidationTools
    else true
  }

  /** A pro user may perform every action, whatever the current count. */
  lemma ProMayDoAnything(profile: Option<Profile>, action: string, currentCount: int)
    requires IsPro(profile)
    ensures CanPerformAction(profile, action, currentCount)
  {
  }

  /** The free plan admits exactly counts 0, 1 and 2 for a new idea. */
  lemma FreeIdeaCap(profile: Option<Profile>, currentCount: nat)
    requires !IsPro(profile)
    ensures CanPerformAction(profile, "create_idea", currentCount) <==> currentCount <= 2
  {
  }

  datatype Limit = Limit(limit: int, unlimited: bool)
  datatype UsageLimits = UsageLimits(ideas: Limit, validations: Limit)

  /** `getUsageLimits()`: each limit with an `unlimited` flag that holds iff it is -1. */
  function GetUsageLimits(profile: Option<Profile>): (u: UsageLimits)
    ensures u.ideas.unlimited <==> u.ideas.limit == Unlimited
    ensures u.validations.unlimited <==> u.validations.limit == Unlimited
    ensures u.ideas.unlimited <==> IsPro(profile)
    ensures u.validations.unlimited <==> IsPro(profile)
    ensures !IsPro(profile) ==> u.ideas.limit == 3 && u.validations.limit == 5
  {
    var f := GetFeatures(profile);
    UsageLimits(Limit(f.maxIdeas, f.maxIdeas == Unlimited),
                Limit(f.maxValidations, f.maxValidations == Unlimited))
  }
}
