/** Subscription plans and the limits they put on missions and mentor messages. */
module Subscription {
  import opened Wrappers
  import opened Tables

  datatype Plan = Free | Premium

  /** A numeric limit; `Infinity` in the source. */
  datatype Limit = AtMost(n: nat) | Unlimited

  datatype PlanLimits = PlanLimits(
    maxMissions: Limit, mentorMessagesPerDay: Limit,
    hasAdvancedAnalytics: bool, hasCustomMentorTone: bool, hasCalendarExport: bool)

  /** `getPlanLimits(plan)`: the `PLAN_LIMITS` entry. */
  function GetPlanLimits(plan: Plan): PlanLimits {
    match plan
    case Free => PlanLimits(AtMost(3), AtMost(40), false, false, false)
    case Premium => PlanLimits(Unlimited, Unlimited, true, true, true)
  }

  /** The free plan allows 3 missions and 40 mentor messages a day and no extras; premium is unlimited with every extra. */
  lemma PlanLimitsSpec()
    ensures GetPlanLimits(Free).maxMissions == AtMost(3) && GetPlanLimits(Free).mentorMessagesPerDay == AtMost(40)
    ensures GetPlanLimits(Premium).maxMissions == Unlimited && GetPlanLimits(Premium).mentorMessagesPerDay == Unlimited
    ensures forall p: Plan :: GetPlanLimits(p).hasAdvancedAnalytics == GetPlanLimits(p).hasCustomMentorTone
                              == GetPlanLimits(p).hasCalendarExport == (p == Premium)
  {
  }

  /**
   * `getUserPlan`: the profile's `subscription_plan`, `free` when missing or
   * empty. Any other string is passed on unchecked, and a plan name the limits
   * table does not know is `None` here: looking its limits up fails.
   */
  function UserPlan(stored: Option<string>): Option<Plan> {
    if stored.None? || stored.value == "" || stored.value == "free" then Some(Free)
    else if stored.value == "premium" then Some(Premium)
    else None
  }

  /** Below the limit, or no limit at all. */
  predicate Below(count: nat, limit: Limit) {
    match limit
    case Unlimited => true
    case AtMost(n) => count < n
  }

  /**
   * `canCreateMission`: `None` when the plan lookup fails, otherwise whether
   * the user's active missions (a missing count read as 0) are below the limit.
   */
  function CanCreateMission(stored: Option<string>, activeCount: Option<nat>): Option<bool> {
    match UserPlan(stored)
    case None => None
    case Some(plan) => Some(Below(activeCount.GetOr(0), GetPlanLimits(plan).maxMissions))
  }

  /** The active missions of `u` in the missions table, the `count` the source asks for. */
  function ActiveMissionCount(missions: seq<Mission>, u: UserId): nat
    decreases |missions|
  {
    if missions == [] then 0
    else
      var m := missions[|missions| - 1];
      ActiveMissionCount(missions[..|missions| - 1], u) + (if m.userId == u && m.active then 1 else 0)
  }

  /** `getMentorMessageCount`: the user's mentor notes created today. */
  function MentorMessageCount(notes: seq<MentorNote>, u: UserId, today: Day): nat
    decreases |notes|
  {
    if notes == [] then 0
    else
      var n := notes[|notes| - 1];
      MentorMessageCount(notes[..|notes| - 1], u, today) + (if n.userId == u && n.createdOn == today then 1 else 0)
  }

  /** `canSendMentorMessage`. */
  function CanSendMentorMessage(stored: Option<string>, todayCount: nat): Option<bool> {
    match UserPlan(stored)
    case None => None
    case Some(plan) => Some(Below(todayCount, GetPlanLimits(plan).mentorMessagesPerDay))
  }

  /**
   * A missing plan counts as free; premium may always create, free may
   * create only below three active missions; an unknown plan name fails.
   * More active missions never turns a refusal into a permission.
   */
  lemma CanCreateMissionSpec(stored: Option<string>, activeCount: Option<nat>, fewer: nat)
    ensures stored.None? || stored == Some("") ==> UserPlan(stored) == Some(Free)
    ensures UserPlan(stored) == Some(Premium) ==> CanCreateMission(stored, activeCount) == Some(true)
    ensures UserPlan(stored) == Some(Free) ==>
      CanCreateMission(stored, activeCount) == Some(activeCount.GetOr(0) < 3)
    ensures UserPlan(stored).None? <==> CanCreateMission(stored, activeCount).None?
    ensures CanCreateMission(stored, activeCount) == Some(true) && fewer <= activeCount.GetOr(0) ==>
      CanCreateMission(stored, Some(fewer)) == Some(true)
  {
  }

  /** Premium may always send; free may send while fewer than 40 notes were created today. */
  lemma CanSendMentorMessageSpec(stored: Option<string>, todayCount: nat)
    ensures UserPlan(stored) == Some(Premium) ==> CanSendMentorMessage(stored, todayCount) == Some(true)
    ensures UserPlan(stored) == Some(Free) ==> CanSendMentorMessage(stored, todayCount) == Some(todayCount < 40)
    ensures UserPlan(stored).None? <==> CanSendMentorMessage(stored, todayCount).None?
  {
  }

  /** What the `check-subscription` function returned. */
  datatype InvokeResult = InvokeFailed | InvokeData(plan: Option<string>, subscriptionEnd: Option<string>)

  datatype SubscriptionStatus = SubscriptionStatus(plan: string, subscriptionEnd: Option<string>)

  /** `checkSubscription`: the remote plan, or `free`. */
  function CheckSubscription(hasSession: bool, result: InvokeResult): SubscriptionStatus {
    if !hasSession || result.InvokeFailed? then SubscriptionStatus("free", None)
    else SubscriptionStatus(if result.plan.Some? && result.plan.value != "" then result.plan.value else "free",
                            result.subscriptionEnd)
  }

  /** The plan is `free` without a session, when the call fails, or when no plan came back; otherwise it is the one returned. */
  lemma CheckSubscriptionSpec(hasSession: bool, result: InvokeResult)
    ensures var s := CheckSubscription(hasSession, result);
      && (!hasSession || result.InvokeFailed? || result.plan.None? ==> s.plan == "free")
      && (hasSession && result.InvokeData? && result.plan.Some? && result.plan.value != "" ==> s.plan == result.plan.value)
      && (s.subscriptionEnd.Some? ==> hasSession && result.InvokeData? && s.subscriptionEnd == result.subscriptionEnd)
      && s.plan != ""
  {
  }
}
