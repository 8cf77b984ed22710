/**
 * The dashboard page's state: the signed-in user, the project list, the
 * loading flag and the plan configuration, and the handlers that replace the
 * project list — load (filter by owner), add (prepend a "Processing" project,
 * then mark it "Completed" after the simulated processing) and delete
 * (filter out by id).
 */
module DashboardPage {
  import opened Common
  import opened Domain
  import UsageSummary

  /** The account the page signs in with. */
  const MockUser: UserProfile := UserProfile("user123abc", Some("Demo User"), Some("demo@example.com"), "starter")

  /** The page's mock project store; `now` is the clock reading when the page module loaded. */
  function MockProjectsInitial(now: int): seq<Project> {
    [ Project("proj1", "user123abc", "Client Interview - Alpha Project", 15, "English (US)",
              now - 86400000 * 2, Completed, Some("/audio/mock-alpha.mp3"),
              Some("This is a transcript for the Alpha project..."), "audio/mpeg", 15 * 1024 * 1024),
      Project("proj2", "user123abc", "Internal Brainstorming Session - Project Beta", 45, "Spanish (Spain)",
              now - 86400000 * 1, Processing, Some("/audio/mock-beta.wav"), None, "audio/wav", 45 * 1024 * 1024),
      Project("proj3", "user123abc", "Lecture Recording - Gamma Initiative", 5, "French (France)",
              now, Draft, None, None, "audio/mpeg", 5 * 1024 * 1024) ]
  }

  /** The transcript the simulated processing writes. */
  const MockTranscript: string := "Mock transcript generated."

  function OwnedBy(uid: string): Project -> bool {
    (p: Project) => p.ownerId == uid
  }

  function WithoutId(id: string): Project -> bool {
    (p: Project) => p.id != id
  }

  /** PLANS_CONFIG[planId] || PLANS_CONFIG.free: an unknown plan id falls back to the free plan. */
  function PlanFor(plans: map<string, PlanConfig>, planId: string): (r: Option<PlanConfig>)
    ensures r.Some? ==> r.value in plans.Values
    ensures planId in plans ==> r == Some(plans[planId])
    ensures r.None? <==> planId !in plans && "free" !in plans
  {
    if planId in plans then Some(plans[planId])
    else if "free" in plans then Some(plans["free"])
    else None
  }

  /** The project the add handler builds: id "proj" + Date.now(), owned by the user, "Processing". */
  function NewProject(data: NewProjectData, uid: string, now: nat): (r: Project)
    ensures StartsWith(r.id, "proj") && r.ownerId == uid && r.createdAt == now
    ensures r.status == Processing && r.fileURL.None? && r.transcript.None?
    ensures r.name == data.name && r.duration == data.duration && r.language == data.language
    ensures r.fileType == data.fileType && r.fileSize == data.fileSize
  {
    Project("proj" + NatToString(now), uid, data.name, data.duration, data.language, now,
            Processing, None, None, data.fileType, data.fileSize)
  }

  /** Projects added at different clock readings get different ids. */
  lemma NewProjectIdsDiffer(data1: NewProjectData, data2: NewProjectData, uid1: string, uid2: string, t1: nat, t2: nat)
    requires t1 != t2
    ensures NewProject(data1, uid1, t1).id != NewProject(data2, uid2, t2).id
  {
    var a, b := NatToString(t1), NatToString(t2);
    if "proj" + a == "proj" + b {
      assert a == ("proj" + a)[4..] && b == ("proj" + b)[4..];
      DecimalRoundTrip(t1);
      DecimalRoundTrip(t2);
    }
  }

  /** The map callback of the completion step. */
  function CompleteIfId(p: Project, id: string): Project {
    if p.id == id then p.(status := Completed, transcript := Some(MockTranscript)) else p
  }

  /** prevProjects.map(p => p.id === id ? {...p, status: "Completed", transcript: ...} : p) */
  function MarkCompleted(ps: seq<Project>, id: string): (r: seq<Project>)
    ensures |r| == |ps|
  {
    if ps == [] then [] else [CompleteIfId(ps[0], id)] + MarkCompleted(ps[1..], id)
  }

  // ---------------------------------------------------------------------------
  // Properties of the list updates
  // ---------------------------------------------------------------------------

  /** Completion touches only the entries with the given id, and only their status and transcript. */
  lemma {:induction false} MarkCompletedAt(ps: seq<Project>, id: string, i: nat)
    requires i < |ps|
    ensures |MarkCompleted(ps, id)| == |ps|
    ensures ps[i].id == id ==>
              MarkCompleted(ps, id)[i] == ps[i].(status := Completed, transcript := Some(MockTranscript))
    ensures ps[i].id != id ==> MarkCompleted(ps, id)[i] == ps[i]
  {
    if i > 0 {
      MarkCompletedAt(ps[1..], id, i - 1);
    }
  }

  /** Loading keeps exactly the user's projects, in their original order. */
  lemma LoadKeepsOwnProjects(store: seq<Project>, uid: string, p: Project, a: seq<Project>, b: seq<Project>)
    ensures p in Filter(OwnedBy(uid), store) <==> p in store && p.ownerId == uid
    ensures Filter(OwnedBy(uid), a + b) == Filter(OwnedBy(uid), a) + Filter(OwnedBy(uid), b)
  {
    FilterMembership(OwnedBy(uid), store, p);
    FilterConcat(OwnedBy(uid), a, b);
  }

  /** The mock user owns every mock project, so loading shows all three. */
  lemma LoadShowsAllMockProjects(now: int)
    ensures Filter(OwnedBy(MockUser.uid), MockProjectsInitial(now)) == MockProjectsInitial(now)
  {
    FilterAllKept(OwnedBy(MockUser.uid), MockProjectsInitial(now));
  }

  /** An unknown plan id gets the free plan's configuration. */
  lemma UnknownPlanGetsFree(plans: map<string, PlanConfig>, planId: string)
    requires planId !in plans && "free" in plans
    ensures PlanFor(plans, planId) == Some(plans["free"])
  {
  }

  /** Delete removes every entry with the id, keeps every other entry, and keeps their order. */
  lemma DeleteRule(ps: seq<Project>, id: string, p: Project, a: seq<Project>, b: seq<Project>)
    ensures p in Filter(WithoutId(id), ps) <==> p in ps && p.id != id
    ensures forall q :: q in Filter(WithoutId(id), ps) ==> q.id != id
    ensures Filter(WithoutId(id), a + b) == Filter(WithoutId(id), a) + Filter(WithoutId(id), b)
    ensures Filter(WithoutId(id), Filter(WithoutId(id), ps)) == Filter(WithoutId(id), ps)
  {
    FilterMembership(WithoutId(id), ps, p);
    forall q | q in Filter(WithoutId(id), ps)
      ensures q.id != id
    {
      FilterMembership(WithoutId(id), ps, q);
    }
    FilterConcat(WithoutId(id), a, b);
    FilterIdempotent(WithoutId(id), ps);
  }

  /**
   * Adding then completing, when the new id is not yet in the list: the new project heads
   * the list as "Completed" with the mock transcript, and the old list
   * follows unchanged.
   */
  lemma AddThenComplete(data: NewProjectData, uid: string, now: nat, ps: seq<Project>)
    requires forall i :: 0 <= i < |ps| ==> ps[i].id != "proj" + NatToString(now)
    ensures var created := NewProject(data, uid, now);
            var r := MarkCompleted([created] + ps, created.id);
            && |r| == |ps| + 1
            && r[0] == created.(status := Completed, transcript := Some(MockTranscript))
            && r[0].ownerId == uid
            && r[1..] == ps
  {
    var created := NewProject(data, uid, now);
    var r := MarkCompleted([created] + ps, created.id);
    MarkCompletedAt([created] + ps, created.id, 0);
    forall i | 1 <= i < |r|
      ensures r[i] == ps[i - 1]
    {
      MarkCompletedAt([created] + ps, created.id, i);
    }
  }

  // ---------------------------------------------------------------------------
  // The page's state
  // ---------------------------------------------------------------------------

  class Dashboard {
    var user: Option<UserProfile>
    var projects: seq<Project>
    var isLoading: bool
    var currentPlanConfig: Option<PlanConfig>

    /** The first render: no user, no projects, loading, no plan. */
    constructor()
      ensures user.None? && projects == [] && isLoading && currentPlanConfig.None?
    {
      user := None;
      projects := [];
      isLoading := true;
      currentPlanConfig := None;
    }

    /**
     * fetchData as written: the config module no longer exports PLANS_CONFIG,
     * so the imported binding is undefined. Reading PLANS_CONFIG[planId] right
     * after setUser throws a TypeError, the async function rejects, and no
     * later line runs: the page keeps loading with no plan and no projects.
     */
    method FetchDataAsWritten(signedIn: UserProfile) returns (threw: bool)
      modifies this
      ensures threw
      ensures user == Some(signedIn) && isLoading
      ensures currentPlanConfig == old(currentPlanConfig) && projects == old(projects)
    {
      isLoading := true;
      user := Some(signedIn);
      threw := true;
    }

    /** fetchData with a plan table: set the user, resolve the plan, keep the user's own projects. */
    method FetchData(signedIn: UserProfile, store: seq<Project>, plans: map<string, PlanConfig>)
      modifies this
      ensures user == Some(signedIn)
      ensures currentPlanConfig == PlanFor(plans, signedIn.planId)
      ensures projects == Filter(OwnedBy(signedIn.uid), store)
      ensures !isLoading
    {
      isLoading := true;
      user := Some(signedIn);
      currentPlanConfig := PlanFor(plans, signedIn.planId);
      projects := Filter(OwnedBy(signedIn.uid), store);
      isLoading := false;
    }

    /** handleAddProject up to its await: without a user nothing changes; otherwise prepend the new project. */
    method BeginAddProject(data: NewProjectData, now: nat) returns (added: Option<string>)
      modifies this
      ensures user == old(user) && isLoading == old(isLoading) && currentPlanConfig == old(currentPlanConfig)
      ensures old(user).None? ==> added.None? && projects == old(projects)
      ensures old(user).Some? ==>
                && added == Some("proj" + NatToString(now))
                && projects == [NewProject(data, old(user).value.uid, now)] + old(projects)
    {
      if user.None? {
        return None;
      }
      var newProject := NewProject(data, user.value.uid, now);
      projects := [newProject] + projects;
      added := Some(newProject.id);
    }

    /** handleAddProject after its await: mark the entries with the new id as completed. */
    method CompleteProject(id: string)
      modifies this
      ensures user == old(user) && isLoading == old(isLoading) && currentPlanConfig == old(currentPlanConfig)
      ensures projects == MarkCompleted(old(projects), id)
    {
      projects := MarkCompleted(projects, id);
    }

    /** The whole add handler when nothing else updates the list during its await. */
    method HandleAddProject(data: NewProjectData, now: nat)
      modifies this
      ensures user == old(user) && isLoading == old(isLoading) && currentPlanConfig == old(currentPlanConfig)
      ensures old(user).None? ==> projects == old(projects)
      ensures old(user).Some? ==>
                projects == MarkCompleted([NewProject(data, old(user).value.uid, now)] + old(projects),
                                          "proj" + NatToString(now))
    {
      var added := BeginAddProject(data, now);
      if added.Some? {
        CompleteProject(added.value);
      }
    }

    /** handleDeleteProject: drop every entry with the id. */
    method HandleDeleteProject(id: string)
      modifies this
      ensures user == old(user) && isLoading == old(isLoading) && currentPlanConfig == old(currentPlanConfig)
      ensures projects == Filter(WithoutId(id), old(projects))
    {
      projects := Filter(WithoutId(id), projects);
    }
  }

  // ---------------------------------------------------------------------------
  // The first load, as written and as intended
  // ---------------------------------------------------------------------------

  /**
   * As written, the first load never finishes: after the rejected fetchData
   * the usage card is the loading card and the list is empty and loading,
   * which the project list shows as its full-page loader.
   */
  method LoadingForeverAsWritten(signedIn: UserProfile) returns (card: UsageSummary.Card, loading: bool, shown: seq<Project>)
    ensures card == UsageSummary.LoadingCard
    ensures loading && shown == []
  {
    var page := new Dashboard();
    var _ := page.FetchDataAsWritten(signedIn);
    card := UsageSummary.Render(page.user, page.projects, page.currentPlanConfig);
    loading := page.isLoading;
    shown := page.projects;
  }

  /**
   * With a plan table the first load finishes: the user's own projects are
   * shown, and the usage card appears whenever the table resolves a plan.
   */
  method LoadedAsIntended(signedIn: UserProfile, store: seq<Project>, plans: map<string, PlanConfig>)
    returns (card: UsageSummary.Card, loading: bool, shown: seq<Project>)
    ensures !loading && shown == Filter(OwnedBy(signedIn.uid), store)
    ensures card == UsageSummary.LoadingCard <==> PlanFor(plans, signedIn.planId).None?
  {
    var page := new Dashboard();
    page.FetchData(signedIn, store, plans);
    card := UsageSummary.Render(page.user, page.projects, page.currentPlanConfig);
    loading := page.isLoading;
    shown := page.projects;
  }
}
