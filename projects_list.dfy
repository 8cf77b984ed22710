/**
 * The dashboard's project list: the create-button guard that opens the
 * create dialog, the delete-confirmation dialog driven by projectToDelete and
 * isDeleting, and which of the loader, the empty state and the list is shown.
 */
module ProjectsList {
  import opened Common
  import opened Domain
  import DashboardPage
  import CreateProjectModal

  /** The create button opens the dialog only with a user, a plan, and the project limit not reached. */
  predicate CanCreate(user: Option<UserProfile>, plan: Option<PlanConfig>, count: nat) {
    user.Some? && plan.Some? && !ProjectLimitReached(plan.value, count)
  }

  /** The outcome of a create click: the dialog opens, or one of the two error toasts. */
  datatype ClickOutcome = Opened | UserOrPlanMissing | LimitReached(limit: nat, planName: string)

  /** The full-page loader replaces everything while loading an empty list. */
  predicate ShowsFullLoader(isLoading: bool, projects: seq<Project>) {
    isLoading && |projects| == 0
  }

  /** The small "Updating projects..." loader above a non-empty list. */
  predicate ShowsInlineLoader(isLoading: bool, projects: seq<Project>) {
    isLoading && |projects| > 0
  }

  /** The "No projects yet." panel, reached only past the full loader. */
  predicate ShowsEmptyState(isLoading: bool, projects: seq<Project>) {
    !ShowsFullLoader(isLoading, projects) && !isLoading && |projects| == 0
  }

  /** The project cards. */
  predicate ShowsList(isLoading: bool, projects: seq<Project>) {
    !ShowsFullLoader(isLoading, projects) && !ShowsEmptyState(isLoading, projects)
  }

  /** Exactly one of the full loader, the empty state and the list is shown; an empty list never shows as a list. */
  lemma OneViewAtATime(isLoading: bool, projects: seq<Project>)
    ensures ShowsFullLoader(isLoading, projects) <==> isLoading && projects == []
    ensures ShowsEmptyState(isLoading, projects) <==> !isLoading && projects == []
    ensures ShowsList(isLoading, projects) <==> projects != []
    ensures ShowsInlineLoader(isLoading, projects) ==> ShowsList(isLoading, projects)
  {
  }

  /**
   * The button guard and the dialog's own guards agree: the dialog admits an
   * upload only when the button would have opened it, and for such a list it
   * refuses only for minutes.
   */
  lemma CreateGuardAgreesWithDialog(data: CreateProjectModal.ProjectFormData, user: Option<UserProfile>,
                                    plan: Option<PlanConfig>, projects: seq<Project>, dayOf: int -> int, today: int)
    requires CreateProjectModal.Valid(data)
    ensures var d := CreateProjectModal.Decision(data, user, plan, projects, dayOf, today);
            CanCreate(user, plan, |projects|) <==> d.Admitted? || d.QuotaExceeded?
  {
  }

  class List {
    var isModalOpen: bool
    var projectToDelete: Option<string>
    var isDeleting: bool

    constructor()
      ensures !isModalOpen && projectToDelete.None? && !isDeleting
    {
      isModalOpen := false;
      projectToDelete := None;
      isDeleting := false;
    }

    /** open={!!projectToDelete}: the confirmation is open iff a non-empty id is pending. */
    function DeleteDialogOpen(): bool
      reads this
    {
      TruthyString(projectToDelete)
    }

    /** handleCreateNewProjectClick: open the dialog when the guard passes, else leave it as it was. */
    method HandleCreateNewProjectClick(user: Option<UserProfile>, plan: Option<PlanConfig>, projects: seq<Project>)
      returns (outcome: ClickOutcome)
      modifies this
      ensures isModalOpen == (old(isModalOpen) || CanCreate(user, plan, |projects|))
      ensures outcome == Opened <==> CanCreate(user, plan, |projects|)
      ensures outcome == UserOrPlanMissing <==> user.None? || plan.None?
      ensures outcome.LimitReached? ==> outcome == LimitReached(plan.value.projectLimit.value, plan.value.name)
      ensures projectToDelete == old(projectToDelete) && isDeleting == old(isDeleting)
    {
      if user.None? || plan.None? {
        return UserOrPlanMissing;
      }
      if plan.value.projectLimit.Some? && |projects| >= plan.value.projectLimit.value {
        return LimitReached(plan.value.projectLimit.value, plan.value.name);
      }
      isModalOpen := true;
      outcome := Opened;
    }

    /** The dialog's onClose. */
    method CloseModal()
      modifies this
      ensures !isModalOpen
      ensures projectToDelete == old(projectToDelete) && isDeleting == old(isDeleting)
    {
      isModalOpen := false;
    }

    /** openDeleteDialog: remember the project to delete. */
    method OpenDeleteDialog(projectId: string)
      modifies this
      ensures projectToDelete == Some(projectId)
      ensures DeleteDialogOpen() <==> projectId != ""
      ensures isModalOpen == old(isModalOpen) && isDeleting == old(isDeleting)
    {
      projectToDelete := Some(projectId);
    }

    /** The Cancel button, and the dialog closing by itself: forget the pending id. */
    method CancelDelete()
      modifies this
      ensures projectToDelete.None? && !DeleteDialogOpen()
      ensures isModalOpen == old(isModalOpen) && isDeleting == old(isDeleting)
    {
      projectToDelete := None;
    }

    /** handleDeleteConfirm up to its await: nothing without a pending id, else raise isDeleting. */
    method BeginDeleteConfirm() returns (target: Option<string>)
      modifies this
      ensures !TruthyString(old(projectToDelete)) ==>
                target.None? && isDeleting == old(isDeleting) && projectToDelete == old(projectToDelete)
      ensures TruthyString(old(projectToDelete)) ==>
                target == old(projectToDelete) && isDeleting && projectToDelete == old(projectToDelete)
      ensures isModalOpen == old(isModalOpen)
    {
      if !TruthyString(projectToDelete) {
        return None;
      }
      isDeleting := true;
      target := projectToDelete;
    }

    /** handleDeleteConfirm after its await: the finally block runs whether the delete resolved or threw. */
    method SettleDeleteConfirm(threw: bool) returns (failureToast: bool)
      modifies this
      ensures !isDeleting && projectToDelete.None? && !DeleteDialogOpen()
      ensures failureToast == threw
      ensures isModalOpen == old(isModalOpen)
    {
      failureToast := threw;
      isDeleting := false;
      projectToDelete := None;
    }

    /** The confirm handler wired to the dashboard's delete handler, which never throws. */
    method HandleDeleteConfirm(page: DashboardPage.Dashboard)
      modifies this, page
      ensures !TruthyString(old(projectToDelete)) ==>
                && page.projects == old(page.projects)
                && isDeleting == old(isDeleting) && projectToDelete == old(projectToDelete)
      ensures TruthyString(old(projectToDelete)) ==>
                && page.projects == Filter(DashboardPage.WithoutId(old(projectToDelete).value), old(page.projects))
                && !isDeleting && projectToDelete.None?
      ensures isModalOpen == old(isModalOpen)
      ensures page.user == old(page.user) && page.currentPlanConfig == old(page.currentPlanConfig)
      ensures page.isLoading == old(page.isLoading)
    {
      var target := BeginDeleteConfirm();
      if target.Some? {
        page.HandleDeleteProject(target.value);
        var _ := SettleDeleteConfirm(false);
      }
    }
  }
}
