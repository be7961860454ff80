/**
 * The subscription plan table and its lookups (src/config/planDefinitions.ts): prices, Stripe price
 * ids, per-plan feature limits, the Starter fallback for unknown plans and the Founder slot count.
 * Price ids come from build-time environment variables (a map from variable name to value); the
 * count of paid Founder waitlist entries comes from a query that may fail (None).
 */
module Plans {
  import opened Wrappers

  datatype Features = Features(estimatesPerMonth: int, users: int, storageGB: real, canGenerateProposals: bool,
                               canGenerateContracts: bool, canUseTeams: bool, canUseIntegrations: bool,
                               supportResponseHours: nat)

  datatype Plan = Plan(name: string, price: nat, priceId: string, features: Features, isLifetime: bool,
                       maxSlots: Option<nat>)

  /** The value -1 marks an unlimited allowance. */
  const Unlimited: int := -1
  const FounderSlots: nat := 30

  /** `import.meta.env.X || ''`. */
  function PriceId(env: map<string, string>, variable: string): string {
    if variable in env then env[variable] else ""
  }

  const StarterFeatures := Features(3, 1, 0.5, false, false, false, false, 24)
  const ProFeatures := Features(25, 2, 10.0, true, false, false, false, 8)
  const BusinessFeatures := Features(Unlimited, 5, 50.0, true, true, false, true, 4)
  const ProTeamFeatures := Features(Unlimited, 10, 200.0, true, true, true, true, 1)
  const EnterpriseFeatures := Features(Unlimited, Unlimited, -1.0, true, true, true, true, 0)
  const ResellerFeatures := Features(Unlimited, 5, 100.0, true, true, true, true, 4)
  const FounderFeatures := Features(Unlimited, 5, 100.0, true, true, true, true, 1)

  function Regular(name: string, price: nat, priceId: string, features: Features): Plan {
    Plan(name, price, priceId, features, false, None)
  }

  function FounderPlan(env: map<string, string>): Plan {
    Plan("Founder", 250, PriceId(env, "VITE_STRIPE_PRICE_FOUNDER"), FounderFeatures, true, Some(FounderSlots))
  }

  /** The six plans the plan enumeration names, keyed by their enumeration value. */
  function Listed(env: map<string, string>): map<string, Plan> {
    map[
      "Starter" := Regular("Starter", 0, "", StarterFeatures),
      "Pro" := Regular("Pro", 149, PriceId(env, "VITE_STRIPE_PRICE_PRO"), ProFeatures),
      "Business" := Regular("Business", 299, PriceId(env, "VITE_STRIPE_PRICE_BUSINESS"), BusinessFeatures),
      "Pro Team" := Regular("Pro Team", 449, PriceId(env, "VITE_STRIPE_PRICE_PRO_TEAM"), ProTeamFeatures),
      "Enterprise" := Regular("Enterprise", 1049, PriceId(env, "VITE_STRIPE_PRICE_ENTERPRISE"), EnterpriseFeatures),
      "Reseller" := Regular("Reseller", 549, PriceId(env, "VITE_STRIPE_PRICE_RESELLER"), ResellerFeatures)
    ]
  }

  /** `PLANS` as written: the enumeration in src/types.ts has no FOUNDER member, so the computed key
      `[UserPlan.FOUNDER]` is the text "undefined". */
  function TableAsWritten(env: map<string, string>): (t: map<string, Plan>)
    ensures "Starter" in t && "undefined" in t && "Founder" !in t
  {
    Listed(env)["undefined" := FounderPlan(env)]
  }

  /** `PLANS` as intended: the Founder plan under its own name. */
  function Table(env: map<string, string>): (t: map<string, Plan>)
    ensures "Starter" in t && "Founder" in t && "undefined" !in t
    ensures forall k :: k in t ==> t[k].name == k
  {
    Listed(env)["Founder" := FounderPlan(env)]
  }

  /** The property key a plan value selects: `undefined` reads the key "undefined". */
  function PlanKey(plan: Option<string>): string {
    if plan.Some? then plan.value else "undefined"
  }

  /** `PLANS[plan]?.features || PLANS[STARTER].features` over a given table. */
  function Limits(table: map<string, Plan>, plan: Option<string>): (f: Features)
    requires "Starter" in table
    ensures PlanKey(plan) in table ==> f == table[PlanKey(plan)].features
    ensures PlanKey(plan) !in table ==> f == table["Starter"].features
  {
    if PlanKey(plan) in table then table[PlanKey(plan)].features else table["Starter"].features
  }

  /** `getPlanLimits` as the code stands, over the table with Founder under "undefined". */
  function GetPlanLimitsAsWritten(env: map<string, string>, plan: Option<string>): (f: Features)
    ensures plan.Some? && plan.value in Listed(env) ==> f == Listed(env)[plan.value].features
    ensures plan == Some("Founder") ==> f == StarterFeatures
    ensures plan.None? ==> f == FounderFeatures
  {
    Limits(TableAsWritten(env), plan)
  }

  /** `getPlanLimits` over the intended table. */
  function GetPlanLimits(env: map<string, string>, plan: Option<string>): (f: Features)
    ensures plan.Some? && plan.value in Table(env) ==> f == Table(env)[plan.value].features
    ensures PlanKey(plan) !in Table(env) ==> f == StarterFeatures
  {
    Limits(Table(env), plan)
  }

  /** As written, a Founder subscriber is held to the Starter limits, while a session without a plan
      (the default session stores `UserPlan.ESSENTIAL`, which is also undefined) gets Founder's. */
  lemma FounderKeyMisplaced(env: map<string, string>)
    ensures GetPlanLimitsAsWritten(env, Some("Founder")) == StarterFeatures
    ensures GetPlanLimitsAsWritten(env, None) == FounderFeatures
    ensures GetPlanLimitsAsWritten(env, None).estimatesPerMonth == Unlimited
  {
  }

  /** With the intended table, Founder gets its own unlimited limits and a missing plan the Starter ones. */
  lemma FounderKeyCorrected(env: map<string, string>)
    ensures GetPlanLimits(env, Some("Founder")) == FounderFeatures
    ensures GetPlanLimits(env, None) == StarterFeatures
  {
  }

  /** As written, any plan key outside the table falls back to Starter — "Founder" among them — and a
      listed plan gets its own features. */
  lemma UnknownPlanIsStarter(env: map<string, string>, plan: Option<string>)
    ensures PlanKey(plan) !in TableAsWritten(env) ==> GetPlanLimitsAsWritten(env, plan) == StarterFeatures
    ensures plan.Some? && plan.value in Listed(env) ==> GetPlanLimitsAsWritten(env, plan) == Listed(env)[plan.value].features
    ensures "Founder" !in TableAsWritten(env)
  {
  }

  datatype FeatureKey =
    | EstimatesPerMonth | Users | StorageGB | CanGenerateProposals | CanGenerateContracts | CanUseTeams
    | CanUseIntegrations | SupportResponseHours

  datatype FeatureValue = Count(n: int) | Size(gb: real) | Flag(on: bool)

  function Feature(f: Features, key: FeatureKey): FeatureValue {
    match key
    case EstimatesPerMonth => Count(f.estimatesPerMonth)
    case Users => Count(f.users)
    case StorageGB => Size(f.storageGB)
    case CanGenerateProposals => Flag(f.canGenerateProposals)
    case CanGenerateContracts => Flag(f.canGenerateContracts)
    case CanUseTeams => Flag(f.canUseTeams)
    case CanUseIntegrations => Flag(f.canUseIntegrations)
    case SupportResponseHours => Count(f.supportResponseHours)
  }

  /** `canAccessFeature` as the code stands: the feature as `getPlanLimits` gives it, so a Founder
      subscriber gets Starter's and a session without a plan Founder's. */
  function CanAccessFeature(env: map<string, string>, plan: Option<string>, key: FeatureKey): (v: FeatureValue)
    ensures plan.Some? && plan.value in Listed(env) ==> v == Feature(Listed(env)[plan.value].features, key)
    ensures plan == Some("Founder") ==> v == Feature(StarterFeatures, key)
    ensures plan.None? ==> v == Feature(FounderFeatures, key)
    ensures PlanKey(plan) !in TableAsWritten(env) ==> v == Feature(StarterFeatures, key)
  {
    Feature(GetPlanLimitsAsWritten(env, plan), key)
  }

  /** `canAccessFeature` over the intended table: Starter's for an unknown or missing plan. */
  function CanAccessFeatureCorrected(env: map<string, string>, plan: Option<string>, key: FeatureKey): (v: FeatureValue)
    ensures PlanKey(plan) !in Table(env) ==> v == Feature(StarterFeatures, key)
    ensures plan.Some? && plan.value in Table(env) ==> v == Feature(Table(env)[plan.value].features, key)
  {
    Feature(GetPlanLimits(env, plan), key)
  }

  /** Contracts are for Business and above; Starter and Pro get none, and as written neither does
      Founder, whose entry is not found. */
  lemma ContractsFromBusinessUp(env: map<string, string>, plan: string)
    requires plan in Table(env)
    ensures CanAccessFeature(env, Some(plan), CanGenerateContracts) == Flag(true)
        <==> plan !in {"Starter", "Pro", "Founder"}
    ensures CanAccessFeatureCorrected(env, Some(plan), CanGenerateContracts) == Flag(true)
        <==> plan !in {"Starter", "Pro"}
  {
  }

  /** The monthly prices, and their order among the paid tiers. */
  lemma PlanPrices(env: map<string, string>)
    ensures var t := Table(env);
      t["Starter"].price == 0 && t["Pro"].price == 149 && t["Business"].price == 299
      && t["Pro Team"].price == 449 && t["Enterprise"].price == 1049 && t["Reseller"].price == 549
      && t["Founder"].price == 250
    ensures var t := Table(env);
      t["Pro"].price < t["Business"].price < t["Pro Team"].price < t["Reseller"].price < t["Enterprise"].price
  {
  }

  /** Three estimates a month on Starter, 25 on Pro, unlimited on every other plan. */
  lemma EstimateAllowances(env: map<string, string>, plan: string)
    requires plan in Table(env)
    ensures Table(env)[plan].features.estimatesPerMonth ==
      (if plan == "Starter" then 3 else if plan == "Pro" then 25 else Unlimited)
  {
  }

  /** Only Founder is a lifetime plan, and only it has a slot limit (30). */
  lemma OnlyFounderIsLifetime(env: map<string, string>, plan: string)
    requires plan in Table(env)
    ensures Table(env)[plan].isLifetime <==> plan == "Founder"
    ensures Table(env)[plan].maxSlots.Some? <==> plan == "Founder"
    ensures plan == "Founder" ==> Table(env)[plan].maxSlots == Some(FounderSlots)
  {
  }

  /** `getFounderSlotsRemaining`: 30 less the paid Founder entries, never below 0; 30 when counting
      fails. */
  function FounderSlotsRemaining(taken: Option<nat>): (r: nat)
    ensures r <= FounderSlots
    ensures taken.None? ==> r == FounderSlots
    ensures taken.Some? ==> (r == 0 <==> taken.value >= FounderSlots)
    ensures taken.Some? && taken.value <= FounderSlots ==> r + taken.value == FounderSlots
  {
    match taken
    case None => FounderSlots
    case Some(n) => if n >= FounderSlots then 0 else FounderSlots - n
  }

  /** Each further paid Founder leaves at most as many slots. */
  lemma SlotsShrink(a: nat, b: nat)
    requires a <= b
    ensures FounderSlotsRemaining(Some(b)) <= FounderSlotsRemaining(Some(a))
  {
  }
}
