/**
 * The "Create New Project" dialog: the form schema (name, language, audio
 * file) and the submit handler's admission sequence — user/plan guard,
 * project-count limit, the duration estimate from the file size, and the
 * daily-or-monthly minute quota — followed by the isSubmitting flag that is
 * raised around the call to the dashboard's create callback.
 */
module CreateProjectModal {
  import opened Common
  import opened Domain

  /** 50 MiB, the largest upload the dialog accepts. */
  const MaxAudioBytes: nat := 50 * 1024 * 1024

  /** The dialog's form values; a file input that was never touched holds no FileList. */
  datatype ProjectFormData = ProjectFormData(projectName: string, language: string, audioFile: Option<seq<AudioFile>>)

  /** The schema's issues, in the order the schema checks them. */
  datatype Issue = NameTooShort | NameTooLong | LanguageMissing | AudioFileMissing | NotAudio | TooLarge

  function Message(i: Issue): string {
    match i
    case NameTooShort => "Project name must be at least 3 characters"
    case NameTooLong => "String must contain at most 100 character(s)"
    case LanguageMissing => "Please select a language"
    case AudioFileMissing => "Audio file is required."
    case NotAudio => "File must be an audio type (MP3, WAV)."
    case TooLarge => "File size must be 50MB or less."
  }

  predicate HasFiles(files: Option<seq<AudioFile>>) {
    files.Some? && |files.value| > 0
  }

  /** files[0]?.type.startsWith("audio/"), false when there is no first file. */
  predicate FirstIsAudio(files: Option<seq<AudioFile>>) {
    HasFiles(files) && StartsWith(files.value[0].fileType, "audio/")
  }

  /** files[0]?.size <= 50 MiB, false when there is no first file. */
  predicate FirstWithinSize(files: Option<seq<AudioFile>>) {
    HasFiles(files) && files.value[0].size <= MaxAudioBytes
  }

  function NameIssues(name: string): (r: seq<Issue>)
    ensures r == [] <==> 3 <= |name| <= 100
  {
    (if |name| < 3 then [NameTooShort] else []) + (if |name| > 100 then [NameTooLong] else [])
  }

  function LanguageIssues(language: string): (r: seq<Issue>)
    ensures r == [] <==> language != ""
  {
    if |language| < 1 then [LanguageMissing] else []
  }

  /** Each refinement is checked on its own, so a missing file raises all three issues. */
  function FileIssues(files: Option<seq<AudioFile>>): (r: seq<Issue>)
    ensures r == [] <==> files.Some? && |files.value| > 0
                         && StartsWith(files.value[0].fileType, "audio/")
                         && files.value[0].size <= 52428800
    ensures !HasFiles(files) ==> r == [AudioFileMissing, NotAudio, TooLarge]
  {
    (if HasFiles(files) then [] else [AudioFileMissing])
    + (if FirstIsAudio(files) then [] else [NotAudio])
    + (if FirstWithinSize(files) then [] else [TooLarge])
  }

  /** Every issue of the form, field by field in the schema's order. */
  function Issues(data: ProjectFormData): seq<Issue> {
    NameIssues(data.projectName) + LanguageIssues(data.language) + FileIssues(data.audioFile)
  }

  /** The form passes the schema; only then does the submit handler run. */
  predicate Valid(data: ProjectFormData) {
    Issues(data) == []
  }

  lemma ValidIff(data: ProjectFormData)
    ensures Valid(data) <==>
      && 3 <= |data.projectName| <= 100
      && data.language != ""
      && data.audioFile.Some? && |data.audioFile.value| > 0
      && StartsWith(data.audioFile.value[0].fileType, "audio/")
      && data.audioFile.value[0].size <= 52428800
  {
    var n, l, f := NameIssues(data.projectName), LanguageIssues(data.language), FileIssues(data.audioFile);
    assert Issues(data) == [] <==> n == [] && l == [] && f == [] by {
      assert |Issues(data)| == |n| + |l| + |f|;
    }
  }

  // ---------------------------------------------------------------------------
  // Admission
  // ---------------------------------------------------------------------------

  /** Math.ceil((size / 1024 / 1024) * 5): five minutes per MiB, rounded up. */
  function EstimatedMinutes(size: nat): (m: nat)
    ensures m * 1048576 >= size * 5
    ensures m == 0 || (m - 1) * 1048576 < size * 5
  {
    (size * 5 + 1048575) / 1048576
  }

  /** A larger file never gets a smaller estimate. */
  lemma EstimateMonotone(a: nat, b: nat)
    requires a <= b
    ensures EstimatedMinutes(a) <= EstimatedMinutes(b)
  {
  }

  /** A project counts towards today's minutes when it was created on the same calendar day. */
  function SameDay(dayOf: int -> int, today: int): Project -> bool {
    (p: Project) => dayOf(p.createdAt) == today
  }

  /**
   * The quota rule: a truthy daily limit is checked against same-day minutes
   * only; otherwise a truthy monthly limit against all minutes; otherwise no
   * quota applies. The comparison is strict, so reaching the limit exactly is allowed.
   */
  predicate OverQuota(plan: PlanConfig, projects: seq<Project>, estimate: nat, dayOf: int -> int, today: int)
    ensures !TruthyNat(plan.minuteLimitDaily) && !TruthyNat(plan.minuteLimitMonthly) ==>
              !OverQuota(plan, projects, estimate, dayOf, today)
    ensures OverQuota(plan, projects, estimate, dayOf, today) ==>
              TotalDuration(projects) + estimate
              > (if TruthyNat(plan.minuteLimitDaily) then plan.minuteLimitDaily.value else plan.minuteLimitMonthly.value)
  {
    TotalDurationFilterBound(SameDay(dayOf, today), projects);
    if TruthyNat(plan.minuteLimitDaily) then
      TotalDuration(Filter(SameDay(dayOf, today), projects)) + estimate > plan.minuteLimitDaily.value
    else if TruthyNat(plan.minuteLimitMonthly) then
      TotalDuration(projects) + estimate > plan.minuteLimitMonthly.value
    else
      false
  }

  datatype Admission = UserOrPlanMissing | LimitReached | QuotaExceeded | Admitted(request: NewProjectData)

  /** The verdict of the submit handler's guard sequence, in the order it runs them. */
  function Decision(data: ProjectFormData, user: Option<UserProfile>, plan: Option<PlanConfig>,
                    projects: seq<Project>, dayOf: int -> int, today: int): (r: Admission)
    requires Valid(data)
    ensures r == UserOrPlanMissing <==> user.None? || plan.None?
    ensures r == LimitReached <==> user.Some? && plan.Some? && ProjectLimitReached(plan.value, |projects|)
    ensures r == QuotaExceeded <==>
              && user.Some? && plan.Some? && !ProjectLimitReached(plan.value, |projects|)
              && OverQuota(plan.value, projects, EstimatedMinutes(data.audioFile.value[0].size), dayOf, today)
    ensures r.Admitted? ==> r.request.duration == EstimatedMinutes(data.audioFile.value[0].size)
  {
    if user.None? || plan.None? then UserOrPlanMissing
    else if ProjectLimitReached(plan.value, |projects|) then LimitReached
    else
      var file := data.audioFile.value[0];
      var estimate := EstimatedMinutes(file.size);
      if OverQuota(plan.value, projects, estimate, dayOf, today) then QuotaExceeded
      else Admitted(NewProjectData(data.projectName, data.language, estimate, file.fileType, file.size))
  }

  /** The reduce over project durations. */
  method SumDurations(projects: seq<Project>) returns (sum: nat)
    ensures sum == TotalDuration(projects)
  {
    sum := 0;
    var i := 0;
    while i < |projects|
      invariant 0 <= i <= |projects|
      invariant sum == TotalDuration(projects[..i])
    {
      assert projects[..i + 1][..i] == projects[..i];
      sum := sum + projects[i].duration;
      i := i + 1;
    }
    assert projects[..i] == projects;
  }

  /** The guard sequence with its early returns and the limitExceeded flag. */
  method Admit(data: ProjectFormData, user: Option<UserProfile>, plan: Option<PlanConfig>,
               projects: seq<Project>, now: int, dayOf: int -> int) returns (a: Admission)
    requires Valid(data)
    ensures a == Decision(data, user, plan, projects, dayOf, dayOf(now))
  {
    if user.None? || plan.None? {
      return UserOrPlanMissing;
    }
    var config := plan.value;
    if config.projectLimit.Some? && |projects| >= config.projectLimit.value {
      return LimitReached;
    }
    var file := data.audioFile.value[0];
    var mockDuration := EstimatedMinutes(file.size);
    var limitExceeded := false;
    if TruthyNat(config.minuteLimitDaily) {
      var todays := Filter(SameDay(dayOf, dayOf(now)), projects);
      var dailyMinutesUsed := SumDurations(todays);
      if dailyMinutesUsed + mockDuration > config.minuteLimitDaily.value {
        limitExceeded := true;
      }
    } else if TruthyNat(config.minuteLimitMonthly) {
      var monthlyMinutesUsed := SumDurations(projects);
      if monthlyMinutesUsed + mockDuration > config.minuteLimitMonthly.value {
        limitExceeded := true;
      }
    }
    if limitExceeded {
      return QuotaExceeded;
    }
    a := Admitted(NewProjectData(data.projectName, data.language, mockDuration, file.fileType, file.size));
  }

  // ---------------------------------------------------------------------------
  // Properties of the admission rule
  // ---------------------------------------------------------------------------

  /** Without a user or a plan the handler stops before any create call. */
  lemma MissingUserOrPlanStops(data: ProjectFormData, user: Option<UserProfile>, plan: Option<PlanConfig>,
                               projects: seq<Project>, dayOf: int -> int, today: int)
    requires Valid(data)
    ensures user.None? || plan.None? ==> Decision(data, user, plan, projects, dayOf, today) == UserOrPlanMissing
  {
  }

  /** The project limit blocks exactly when it is non-null and the count has reached it. */
  lemma ProjectLimitRule(data: ProjectFormData, user: UserProfile, plan: PlanConfig,
                         projects: seq<Project>, dayOf: int -> int, today: int)
    requires Valid(data)
    ensures Decision(data, Some(user), Some(plan), projects, dayOf, today) == LimitReached
            <==> plan.projectLimit.Some? && |projects| >= plan.projectLimit.value
  {
  }

  /** Once the daily limit is truthy, the monthly limit has no say. */
  lemma DailyLimitTakesPrecedence(plan: PlanConfig, monthly: Option<nat>, projects: seq<Project>,
                                  estimate: nat, dayOf: int -> int, today: int)
    requires TruthyNat(plan.minuteLimitDaily)
    ensures OverQuota(plan, projects, estimate, dayOf, today)
            == OverQuota(plan.(minuteLimitMonthly := monthly), projects, estimate, dayOf, today)
  {
  }

  /** Under a daily limit, a project from another day does not change the quota verdict. */
  lemma DailyIgnoresOtherDays(plan: PlanConfig, projects: seq<Project>, other: Project,
                              estimate: nat, dayOf: int -> int, today: int)
    requires TruthyNat(plan.minuteLimitDaily)
    requires dayOf(other.createdAt) != today
    ensures OverQuota(plan, projects + [other], estimate, dayOf, today)
            == OverQuota(plan, projects, estimate, dayOf, today)
  {
    var keep := SameDay(dayOf, today);
    FilterConcat(keep, projects, [other]);
    assert Filter(keep, [other]) == [];
    assert Filter(keep, projects + [other]) == Filter(keep, projects);
  }

  /** Under a monthly limit alone, every project's minutes count, whatever its day. */
  lemma MonthlyCountsEveryProject(plan: PlanConfig, projects: seq<Project>, other: Project,
                                  estimate: nat, dayOf: int -> int, today: int)
    requires !TruthyNat(plan.minuteLimitDaily) && TruthyNat(plan.minuteLimitMonthly)
    ensures OverQuota(plan, projects + [other], estimate, dayOf, today)
            <==> TotalDuration(projects) + other.duration + estimate > plan.minuteLimitMonthly.value
  {
    TotalDurationConcat(projects, [other]);
    assert [other][..0] == [];
  }

  /** With no truthy minute limit (null or 0), no upload is refused for minutes. */
  lemma NoMinuteLimitNoQuota(plan: PlanConfig, projects: seq<Project>, estimate: nat, dayOf: int -> int, today: int)
    requires !TruthyNat(plan.minuteLimitDaily) && !TruthyNat(plan.minuteLimitMonthly)
    ensures !OverQuota(plan, projects, estimate, dayOf, today)
  {
  }

  /** An upload that brings usage exactly to the applicable limit is admitted. */
  lemma ExactlyAtLimitAdmitted(plan: PlanConfig, projects: seq<Project>, estimate: nat, dayOf: int -> int, today: int)
    requires TruthyNat(plan.minuteLimitDaily) ==>
               TotalDuration(Filter(SameDay(dayOf, today), projects)) + estimate == plan.minuteLimitDaily.value
    requires !TruthyNat(plan.minuteLimitDaily) && TruthyNat(plan.minuteLimitMonthly) ==>
               TotalDuration(projects) + estimate == plan.minuteLimitMonthly.value
    ensures !OverQuota(plan, projects, estimate, dayOf, today)
  {
  }

  /** A larger file is refused whenever a smaller one already is. */
  lemma OverQuotaMonotone(plan: PlanConfig, projects: seq<Project>, small: nat, large: nat, dayOf: int -> int, today: int)
    requires small <= large
    requires OverQuota(plan, projects, EstimatedMinutes(small), dayOf, today)
    ensures OverQuota(plan, projects, EstimatedMinutes(large), dayOf, today)
  {
    EstimateMonotone(small, large);
  }

  /** On admission the callback receives the form's name and language, the estimate, and the file's type and size. */
  lemma AdmittedRequest(data: ProjectFormData, user: Option<UserProfile>, plan: Option<PlanConfig>,
                        projects: seq<Project>, dayOf: int -> int, today: int)
    requires Valid(data)
    requires Decision(data, user, plan, projects, dayOf, today).Admitted?
    ensures var r := Decision(data, user, plan, projects, dayOf, today).request;
            var f := data.audioFile.value[0];
            && user.Some? && plan.Some?
            && !ProjectLimitReached(plan.value, |projects|)
            && r == NewProjectData(data.projectName, data.language, EstimatedMinutes(f.size), f.fileType, f.size)
            && r.duration * 1048576 >= f.size * 5
  {
  }

  /** The effect on the watched audioFile: the first file's name, or null for no files. */
  function DisplayedFileName(files: Option<seq<AudioFile>>): (r: Option<string>)
    ensures r.Some? <==> files.Some? && |files.value| > 0
    ensures r.Some? ==> r.value == files.value[0].name
  {
    if HasFiles(files) then Some(files.value[0].name) else None
  }

  // ---------------------------------------------------------------------------
  // The dialog's state
  // ---------------------------------------------------------------------------

  class Dialog {
    /** True while the create callback is awaited; it disables the submit button. */
    var isSubmitting: bool
    /** The name shown under the file input. */
    var fileName: Option<string>

    constructor()
      ensures !isSubmitting && fileName.None?
    {
      isSubmitting := false;
      fileName := None;
    }

    /** The effect that follows the watched audioFile field. */
    method AudioFileChanged(files: Option<seq<AudioFile>>)
      modifies this
      ensures fileName == DisplayedFileName(files)
      ensures isSubmitting == old(isSubmitting)
    {
      fileName := DisplayedFileName(files);
    }

    /** onOpenChange(false): reset() clears the form, so the effect clears the name; then onClose. */
    method Dismiss()
      modifies this
      ensures fileName.None?
      ensures isSubmitting == old(isSubmitting)
    {
      AudioFileChanged(None);
    }

    /** onSubmit up to the await: run the guards, and raise isSubmitting only when a create call follows. */
    method Submit(data: ProjectFormData, user: Option<UserProfile>, plan: Option<PlanConfig>,
                  projects: seq<Project>, now: int, dayOf: int -> int) returns (a: Admission)
      requires Valid(data)
      modifies this
      ensures a == Decision(data, user, plan, projects, dayOf, dayOf(now))
      ensures isSubmitting == (a.Admitted? || old(isSubmitting))
      ensures fileName == old(fileName)
    {
      a := Admit(data, user, plan, projects, now, dayOf);
      if a.Admitted? {
        isSubmitting := true;
      }
    }

    /**
     * onSubmit after the await settles: the finally block lowers isSubmitting;
     * only a create call that resolved resets the form and closes the dialog.
     */
    method Settle(created: bool) returns (resetAndClose: bool)
      modifies this
      ensures !isSubmitting
      ensures resetAndClose == created
      ensures created ==> fileName.None?
      ensures !created ==> fileName == old(fileName)
    {
      resetAndClose := created;
      if created {
        AudioFileChanged(None);
      }
      isSubmitting := false;
    }
  }
}
