/**
 * The entities the dashboard and editor components pass around: the signed-in
 * user, the plan configuration with its nullable limits, the project record,
 * a selected audio file, and the project data the create dialog hands to the
 * dashboard.
 */
module Domain {
  import opened Common

  datatype UserProfile = UserProfile(uid: string, name: Option<string>, email: Option<string>, planId: string)

  /** A plan's limits; a null limit means the plan sets none. */
  datatype PlanConfig = PlanConfig(
    id: string,
    name: string,
    minuteLimitDaily: Option<nat>,
    minuteLimitMonthly: Option<nat>,
    projectLimit: Option<nat>)

  /** The status strings the dashboard uses for a project. */
  datatype Status = Draft | Processing | Completed | Error

  /** A project; createdAt is a millisecond timestamp, duration is in minutes. */
  datatype Project = Project(
    id: string,
    ownerId: string,
    name: string,
    duration: nat,
    language: string,
    createdAt: int,
    status: Status,
    fileURL: Option<string>,
    transcript: Option<string>,
    fileType: string,
    fileSize: nat)

  /** One entry of a browser FileList: its name, MIME type and size in bytes. */
  datatype AudioFile = AudioFile(name: string, fileType: string, size: nat)

  /** What the create dialog passes to its onCreateProject callback. */
  datatype NewProjectData = NewProjectData(name: string, language: string, duration: nat, fileType: string, fileSize: nat)

  /** projects.reduce((sum, p) => sum + p.duration, 0): a left fold over the list. */
  function TotalDuration(ps: seq<Project>): (r: nat)
    ensures ps == [] ==> r == 0
    ensures forall i :: 0 <= i < |ps| ==> ps[i].duration <= r
  {
    if ps == [] then 0
    else
      var init := ps[..|ps| - 1];
      assert forall i :: 0 <= i < |init| ==> ps[i] == init[i];
      TotalDuration(init) + ps[|ps| - 1].duration
  }

  /** Minutes add up across a split of the list. */
  lemma {:induction false} TotalDurationConcat(a: seq<Project>, b: seq<Project>)
    ensures TotalDuration(a + b) == TotalDuration(a) + TotalDuration(b)
    decreases |b|
  {
    if b == [] {
      assert a + b == a;
    } else {
      assert (a + b)[..|a + b| - 1] == a + b[..|b| - 1];
      TotalDurationConcat(a, b[..|b| - 1]);
    }
  }

  /** Total minutes of a list whose head is p. */
  lemma TotalDurationCons(p: Project, ps: seq<Project>)
    ensures TotalDuration([p] + ps) == p.duration + TotalDuration(ps)
  {
    TotalDurationConcat([p], ps);
    assert [p][..0] == [];
  }

  /** Filtering projects out never increases the minutes counted. */
  lemma {:induction false} TotalDurationFilterBound(keep: Project -> bool, ps: seq<Project>)
    ensures TotalDuration(Filter(keep, ps)) <= TotalDuration(ps)
  {
    if ps != [] {
      assert ps == [ps[0]] + ps[1..];
      TotalDurationFilterBound(keep, ps[1..]);
      TotalDurationCons(ps[0], ps[1..]);
      if keep(ps[0]) {
        TotalDurationCons(ps[0], Filter(keep, ps[1..]));
      } else {
        assert Filter(keep, ps) == Filter(keep, ps[1..]);
      }
    }
  }

  /**
   * The project-count guard shared by the create button and the create dialog:
   * a non-null limit is reached once the count is at or above it.
   */
  predicate ProjectLimitReached(plan: PlanConfig, count: nat)
    ensures plan.projectLimit.None? ==> !ProjectLimitReached(plan, count)
    ensures plan.projectLimit == Some(0) ==> ProjectLimitReached(plan, count)
    ensures ProjectLimitReached(plan, count) ==> count > 0 || plan.projectLimit == Some(0)
  {
    plan.projectLimit.Some? && count >= plan.projectLimit.value
  }
}
