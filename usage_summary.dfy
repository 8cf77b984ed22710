/**
 * The dashboard's usage card: minutes transcribed, the minute limit shown and
 * its kind, remaining minutes, the two progress percentages, and the two
 * warnings. Everything here is derived from the user, the project list and
 * the plan, with no state of its own.
 */
module UsageSummary {
  import opened Common
  import opened Domain
  import CreateProjectModal

  /** Minutes transcribed: the durations of all projects, whatever their creation date. */
  function TotalMinutes(projects: seq<Project>): (r: nat)
    ensures projects == [] ==> r == 0
    ensures forall i :: 0 <= i < |projects| ==> projects[i].duration <= r
  {
    TotalDuration(projects)
  }

  /** monthly ?? daily ?? null: `??` skips only null, so a limit of 0 is kept. */
  function MinutesLimit(plan: Option<PlanConfig>): (r: Option<nat>)
    ensures plan.None? ==> r.None?
    ensures plan.Some? && plan.value.minuteLimitMonthly.Some? ==> r == plan.value.minuteLimitMonthly
    ensures plan.Some? && plan.value.minuteLimitMonthly.None? ==> r == plan.value.minuteLimitDaily
  {
    if plan.None? then None
    else if plan.value.minuteLimitMonthly.Some? then plan.value.minuteLimitMonthly
    else if plan.value.minuteLimitDaily.Some? then plan.value.minuteLimitDaily
    else None
  }

  /** The label of the limit: truthiness, so a limit of 0 counts as absent. */
  function LimitType(plan: Option<PlanConfig>): (r: string)
    ensures r == "monthly" || r == "daily" || r == ""
    ensures r == "monthly" <==> plan.Some? && TruthyNat(plan.value.minuteLimitMonthly)
    ensures r == "daily" <==>
              plan.Some? && !TruthyNat(plan.value.minuteLimitMonthly) && TruthyNat(plan.value.minuteLimitDaily)
  {
    if plan.None? then ""
    else if TruthyNat(plan.value.minuteLimitMonthly) then "monthly"
    else if TruthyNat(plan.value.minuteLimitDaily) then "daily"
    else ""
  }

  /** Math.max(0, limit - total), or null for no limit. */
  function RemainingMinutes(limit: Option<nat>, total: nat): (r: Option<nat>)
    ensures r.None? <==> limit.None?
    ensures r.Some? ==> r.value <= limit.value && r.value + total >= limit.value
    ensures r.Some? ==> (r.value == 0 <==> total >= limit.value)
    ensures r.Some? ==> r.value == if total <= limit.value then limit.value - total else 0
  {
    if limit.None? then None
    else if limit.value >= total then Some(limit.value - total) else Some(0)
  }

  /** Math.min(100, total / limit * 100), or 0 for a null or zero limit. */
  function UsagePercentage(total: nat, limit: Option<nat>): (r: real)
    ensures 0.0 <= r <= 100.0
    ensures limit.None? || limit.value == 0 ==> r == 0.0
    ensures limit.Some? && limit.value > 0 ==> (r == 100.0 <==> total >= limit.value)
    ensures limit.Some? && limit.value > 0 && total < limit.value ==> r * (limit.value as real) == 100.0 * (total as real)
  {
    if limit.None? || limit.value == 0 then 0.0
    else Min(100.0, (total as real) / (limit.value as real) * 100.0)
  }

  /** projectLimit ? Math.min(100, count / projectLimit * 100) : 0, where a missing plan gives no limit. */
  function ProjectUsagePercentage(count: nat, plan: Option<PlanConfig>): (r: real)
    ensures 0.0 <= r <= 100.0
    ensures plan.None? || !TruthyNat(plan.value.projectLimit) ==> r == 0.0
    ensures plan.Some? && TruthyNat(plan.value.projectLimit) ==>
              (r == 100.0 <==> count >= plan.value.projectLimit.value)
    ensures plan.Some? && TruthyNat(plan.value.projectLimit) && count < plan.value.projectLimit.value ==>
              r * (plan.value.projectLimit.value as real) == 100.0 * (count as real)
  {
    if plan.None? || !TruthyNat(plan.value.projectLimit) then 0.0
    else Min(100.0, (count as real) / (plan.value.projectLimit.value as real) * 100.0)
  }

  /** remaining !== null && remaining <= (limit ?? 0) * 0.1 && limit !== 0 */
  predicate ApproachingLimit(remaining: Option<nat>, limit: Option<nat>)
    ensures ApproachingLimit(remaining, limit) <==>
              remaining.Some? && 10 * remaining.value <= limit.GetOr(0) && limit != Some(0)
  {
    && remaining.Some?
    && (remaining.value as real) <= (limit.GetOr(0) as real) * 0.1
    && !(limit.Some? && limit.value == 0)
  }

  /** The project section, shown when the plan's project limit is not null. */
  datatype ProjectSection = ProjectSection(count: nat, limit: nat, percentage: real, limitReached: bool)

  /** What the card displays. */
  datatype Card =
    | LoadingCard
    | UsageCard(
        limitType: string,
        totalMinutes: nat,
        minutesLimit: Option<nat>,
        progress: Option<real>,
        approachingLimit: bool,
        projects: Option<ProjectSection>)

  function Render(user: Option<UserProfile>, projects: seq<Project>, plan: Option<PlanConfig>): (r: Card)
    ensures r == LoadingCard <==> user.None? || plan.None?
    ensures r.UsageCard? ==> r.totalMinutes == TotalMinutes(projects) && r.minutesLimit == MinutesLimit(plan)
    ensures r.UsageCard? ==> r.limitType == LimitType(plan)
    ensures r.UsageCard? ==>
              r.approachingLimit == ApproachingLimit(RemainingMinutes(MinutesLimit(plan), TotalMinutes(projects)), MinutesLimit(plan))
    ensures r.UsageCard? && r.progress.Some? ==> r.progress.value == UsagePercentage(TotalMinutes(projects), MinutesLimit(plan))
    ensures r.UsageCard? && r.projects.Some? ==> r.projects.value.percentage == ProjectUsagePercentage(|projects|, plan)
  {
    if user.None? || plan.None? then LoadingCard
    else
      var total := TotalMinutes(projects);
      var limit := MinutesLimit(plan);
      var remaining := RemainingMinutes(limit, total);
      var percentage := UsagePercentage(total, limit);
      var count := |projects|;
      UsageCard(
        LimitType(plan),
        total,
        limit,
        if limit.Some? then Some(percentage) else None,
        ApproachingLimit(remaining, limit),
        if plan.value.projectLimit.Some? then
          Some(ProjectSection(count, plan.value.projectLimit.value, ProjectUsagePercentage(count, plan),
                              count >= plan.value.projectLimit.value))
        else None)
  }

  // ---------------------------------------------------------------------------
  // Properties
  // ---------------------------------------------------------------------------

  /** Only durations matter to the total: lists with the same durations have the same total. */
  lemma {:induction false} TotalIgnoresAllButDurations(a: seq<Project>, b: seq<Project>)
    requires |a| == |b|
    requires forall i :: 0 <= i < |a| ==> a[i].duration == b[i].duration
    ensures TotalMinutes(a) == TotalMinutes(b)
  {
    if a != [] {
      TotalIgnoresAllButDurations(a[..|a| - 1], b[..|b| - 1]);
    }
  }

  /** The shown limit prefers a non-null monthly limit, then a non-null daily one; 0 is a limit. */
  lemma MinutesLimitSelection(plan: PlanConfig)
    ensures plan.minuteLimitMonthly.Some? ==> MinutesLimit(Some(plan)) == plan.minuteLimitMonthly
    ensures plan.minuteLimitMonthly.None? ==> MinutesLimit(Some(plan)) == plan.minuteLimitDaily
    ensures MinutesLimit(None) == None
  {
  }

  /**
   * The label names the monthly limit if it is truthy, else the daily one if
   * that is truthy, else nothing; without a plan there is no label.
   */
  lemma LimitTypeRule(plan: PlanConfig)
    ensures LimitType(Some(plan)) == if TruthyNat(plan.minuteLimitMonthly) then "monthly"
                                     else if TruthyNat(plan.minuteLimitDaily) then "daily" else ""
    ensures LimitType(None) == ""
  {
  }

  /**
   * The label and the limit can disagree: a monthly limit of 0 is the limit
   * shown, yet the label falls through to the daily limit (or to none).
   */
  lemma ZeroMonthlyLimit(plan: PlanConfig)
    requires plan.minuteLimitMonthly == Some(0)
    ensures MinutesLimit(Some(plan)) == Some(0)
    ensures LimitType(Some(plan)) == (if TruthyNat(plan.minuteLimitDaily) then "daily" else "")
    ensures forall total: nat :: UsagePercentage(total, MinutesLimit(Some(plan))) == 0.0
  {
  }

  /**
   * With both limits truthy the card shows the monthly limit, while the create
   * dialog admits uploads against the daily limit alone.
   */
  lemma CardAndAdmissionPreferOppositeLimits(plan: PlanConfig, projects: seq<Project>, estimate: nat,
                                             dayOf: int -> int, today: int)
    requires TruthyNat(plan.minuteLimitDaily) && TruthyNat(plan.minuteLimitMonthly)
    ensures MinutesLimit(Some(plan)) == plan.minuteLimitMonthly && LimitType(Some(plan)) == "monthly"
    ensures CreateProjectModal.OverQuota(plan, projects, estimate, dayOf, today)
            <==> TotalDuration(Filter(CreateProjectModal.SameDay(dayOf, today), projects)) + estimate
                 > plan.minuteLimitDaily.value
  {
  }

  /** The warning shows iff a non-zero limit exists and at most a tenth of it remains. */
  lemma ApproachingLimitIff(total: nat, limit: Option<nat>)
    ensures ApproachingLimit(RemainingMinutes(limit, total), limit)
            <==> limit.Some? && limit.value != 0 && 10 * RemainingMinutes(limit, total).value <= limit.value
  {
  }

  /** A used-up or exceeded non-zero limit always triggers the warning. */
  lemma ExhaustedLimitWarns(total: nat, limit: nat)
    requires 0 < limit <= total
    ensures ApproachingLimit(RemainingMinutes(Some(limit), total), Some(limit))
  {
  }

  /** The percentage grows with the minutes used. */
  lemma UsagePercentageMonotone(t1: nat, t2: nat, limit: Option<nat>)
    requires t1 <= t2
    ensures UsagePercentage(t1, limit) <= UsagePercentage(t2, limit)
  {
    if limit.Some? && limit.value > 0 {
      var l := limit.value as real;
      assert (t1 as real) / l <= (t2 as real) / l by {
        assert (t1 as real) <= (t2 as real);
      }
    }
  }

  /** A missing user or plan shows only the loading card. */
  lemma LoadingWithoutUserOrPlan(projects: seq<Project>, user: Option<UserProfile>, plan: Option<PlanConfig>)
    ensures Render(user, projects, plan) == LoadingCard <==> user.None? || plan.None?
  {
  }

  /**
   * The "project limit reached" notice shows exactly when the shared create
   * guard refuses a new project, the minutes warning shows iff a non-zero
   * limit exists and at most a tenth of it remains, and the label is LimitType's.
   */
  lemma CardWarnings(user: UserProfile, projects: seq<Project>, plan: PlanConfig)
    ensures var card := Render(Some(user), projects, Some(plan));
            && card.UsageCard?
            && (card.projects.Some? && card.projects.value.limitReached <==> ProjectLimitReached(plan, |projects|))
            && (card.projects.Some? <==> plan.projectLimit.Some?)
            && (card.progress.Some? <==> MinutesLimit(Some(plan)).Some?)
            && card.totalMinutes == TotalDuration(projects)
    ensures Render(Some(user), projects, Some(plan)).approachingLimit <==>
              && MinutesLimit(Some(plan)).Some? && MinutesLimit(Some(plan)).value != 0
              && 10 * RemainingMinutes(MinutesLimit(Some(plan)), TotalDuration(projects)).value
                 <= MinutesLimit(Some(plan)).value
    ensures Render(Some(user), projects, Some(plan)).limitType == LimitType(Some(plan))
  {
    ApproachingLimitIff(TotalDuration(projects), MinutesLimit(Some(plan)));
  }
}
