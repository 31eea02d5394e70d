// Tier-based feature gating (modules/auth/hooks/useFeatureAccess.ts): the
// signed-in user's `user_access` record decides which features are on, and
// the tier ladder FREE < STARTER < GROWTH < PRO < FULL decides upgrades.
//
// The record's `access_level` is kept as text: the table may hold any
// value, and the hook's answers for an unknown level are modelled too.

module FeatureAccess {
  import opened Common

  datatype UserAccess = UserAccess(id: string, email: string, accessLevel: string,
                                   features: map<string, bool>, usageLimits: map<string, int>,
                                   createdAt: string, updatedAt: string)

  datatype FeatureCheck = FeatureCheck(allowed: bool, reason: Option<string>, upgradeRequired: bool)

  datatype Benefits = Benefits(name: string, features: seq<string>, limits: seq<string>)

  /** The outcome of the `user_access` lookup. */
  datatype Fetch = FetchError | NoRecord | Record(access: UserAccess)

  const Tiers: seq<string> := ["FREE", "STARTER", "GROWTH", "PRO", "FULL"]

  const FeatureNames: seq<string> := ["ad_generation", "analytics_dashboard", "competitive_analysis", "a_b_testing", "api_access"]

  /** The record installed when no record is found or the lookup fails. */
  function FreeTier(email: string, nowIso: string): (r: UserAccess)
    ensures r.accessLevel == "FREE" && r.id == ""
    ensures forall f :: f in r.features <==> f in FeatureNames
    ensures forall f :: f in r.features ==> !r.features[f]
    ensures forall l :: l in r.usageLimits ==> r.usageLimits[l] == 0
  {
    UserAccess("", email, "FREE",
      map["ad_generation" := false, "analytics_dashboard" := false, "competitive_analysis" := false,
          "a_b_testing" := false, "api_access" := false],
      map["ad_generations_per_month" := 0, "analytics_requests_per_month" := 0],
      nowIso, nowIso)
  }

  /**
   * `userAccess.features[featureName]` as a truth value: an own flag, or a
   * member every object inherits (a function, so truthy).
   */
  predicate HasFeature(features: map<string, bool>, featureName: string) {
    match IndexObject(features, featureName)
    case Own(on) => on
    case Inherited => true
    case NoMember => false
  }

  /** `checkFeatureAccess(featureName)` for the loaded record, if any. */
  function CheckFeatureAccess(access: Option<UserAccess>, featureName: string): (r: FeatureCheck)
    ensures access.None? ==> r == FeatureCheck(false, Some("User access not loaded"), true)
    ensures access.Some? ==>
      (r.allowed <==> (featureName in access.value.features && access.value.features[featureName])
                      || (featureName !in access.value.features && featureName in PrototypeNames))
    ensures access.Some? && !r.allowed ==>
      r == FeatureCheck(false, Some(featureName + " not available in " + access.value.accessLevel + " tier"), true)
    ensures r.allowed ==> r == FeatureCheck(true, None, false)
  {
    match access
    case None => FeatureCheck(false, Some("User access not loaded"), true)
    case Some(a) =>
      if !HasFeature(a.features, featureName) then
        FeatureCheck(false, Some(featureName + " not available in " + a.accessLevel + " tier"), true)
      else
        // Every path through the usage-limit check answers `{ allowed: true }`.
        FeatureCheck(true, None, false)
  }

  /**
   * `getAccessLevelBenefits(level)`: the table entry, or FREE's for any
   * other text. A name every object inherits (`toString`, say) finds that
   * truthy member instead, which is returned in place of a benefits record:
   * `None` stands for it.
   */
  function AccessLevelBenefits(level: string): (r: Option<Benefits>)
    ensures level in PrototypeNames <==> r.None?
    ensures (level !in Tiers && level !in PrototypeNames) || level == "FREE" ==> r == Some(FreeBenefits)
    ensures r.Some? ==> (r.value.limits == [] <==> level == "FULL")
  {
    if level in PrototypeNames then None
    else Some(TableBenefits(level))
  }

  /** The benefits table, with FREE's entry for any text that is not a tier. */
  function TableBenefits(level: string): (r: Benefits)
    ensures level !in Tiers || level == "FREE" ==> r == FreeBenefits
    ensures r.limits == [] <==> level == "FULL"
  {
    if level == "STARTER" then
      Benefits("Starter", ["5 ad generations/month", "Basic templates", "Email support"],
               ["No analytics dashboard", "No A/B testing"])
    else if level == "GROWTH" then
      Benefits("Growth", ["25 ad generations/month", "Analytics dashboard", "10 analytics requests/month", "Priority support"],
               ["No competitive analysis", "No A/B testing"])
    else if level == "PRO" then
      Benefits("Pro", ["100 ad generations/month", "Full analytics suite", "Competitive analysis", "A/B testing",
                       "50 analytics requests/month"],
               ["No API access"])
    else if level == "FULL" then
      Benefits("Enterprise", ["Unlimited ad generations", "Full analytics suite", "Competitive analysis", "A/B testing",
                              "API access", "White-label options"],
               [])
    else FreeBenefits
  }

  const FreeBenefits := Benefits("Free", ["Basic ad templates"], ["No ad generation", "No analytics"])

  /** `tiers.indexOf(level)`: the position on the ladder, or -1. */
  function TierIndex(level: string): (i: int)
    ensures -1 <= i < |Tiers|
    ensures i >= 0 ==> Tiers[i] == level
    ensures i == -1 <==> level !in Tiers
  {
    if level == "FREE" then 0
    else if level == "STARTER" then 1
    else if level == "GROWTH" then 2
    else if level == "PRO" then 3
    else if level == "FULL" then 4
    else -1
  }

  /** `canUpgrade()`: an upgrade is possible exactly when there is a next tier. */
  function CanUpgrade(access: Option<UserAccess>): (r: bool)
    ensures r <==> NextTier(access).Some?
  {
    if access.Some? && access.value.accessLevel !in Tiers then
      assert access.value.accessLevel != "FULL";
      true
    else access.None? || access.value.accessLevel != "FULL"
  }

  /** `getNextTier()`: STARTER with no record, else the next rung; an unknown level's index -1 gives FREE. */
  function NextTier(access: Option<UserAccess>): (r: Option<string>)
    ensures access.None? ==> r == Some("STARTER")
    ensures access.Some? && access.value.accessLevel in Tiers ==>
      (r.None? <==> access.value.accessLevel == "FULL")
    ensures access.Some? && access.value.accessLevel !in Tiers ==> r == Some("FREE")
    ensures r.Some? ==> r.value in Tiers
  {
    match access
    case None => Some("STARTER")
    case Some(a) =>
      var i := TierIndex(a.accessLevel);
      if i < |Tiers| - 1 then Some(Tiers[i + 1]) else None
  }

  /** On the ladder, the next tier is one rung up. */
  lemma NextTierClimbs(access: UserAccess)
    requires access.accessLevel in Tiers && access.accessLevel != "FULL"
    ensures TierIndex(NextTier(Some(access)).value) == TierIndex(access.accessLevel) + 1
  {
  }

  /**
   * The FREE record installed after a failed lookup grants none of the
   * features; only a name it inherits from `Object.prototype` passes.
   */
  lemma FreeTierDeniesEverything(email: string, nowIso: string, featureName: string)
    ensures CheckFeatureAccess(Some(FreeTier(email, nowIso)), featureName).allowed <==> featureName in PrototypeNames
  {
    assert forall f :: f in FeatureNames ==> f !in PrototypeNames;
  }

  class FeatureAccessHook {
    var userAccess: Option<UserAccess>
    var loading: bool

    constructor ()
      ensures userAccess.None? && loading
    {
      userAccess := None;
      loading := true;
    }

    /**
     * The user effect and `fetchUserAccess`: no user (or no user id) clears
     * the record; a found record is installed; no record or a lookup error
     * installs the FREE tier. Loading always ends.
     */
    method FetchUserAccess(userId: Option<string>, email: Option<string>, fetch: Fetch, nowIso: string)
      modifies this
      ensures !loading
      ensures userId.None? || userId.value == "" ==> userAccess.None?
      ensures userId.Some? && userId.value != "" ==>
        userAccess == Some(if fetch.Record? then fetch.access
                           else FreeTier(if email.Some? then email.value else "", nowIso))
    {
      loading := true;
      if userId.None? || userId.value == "" {
        userAccess := None;
      } else if fetch.Record? {
        userAccess := Some(fetch.access);
      } else {
        userAccess := Some(FreeTier(if email.Some? then email.value else "", nowIso));
      }
      loading := false;
    }
  }
}
