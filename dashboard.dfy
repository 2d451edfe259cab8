/** The administrators' dashboard (src/pages/Dashboard.tsx): the search and
    status filter over the loaded applications, the local update applied
    after the backend accepts a status change, the status workflow the
    action buttons offer, and the handlers that drive it. The backend itself
    is not modelled: a fetch is the list the view is constructed with, and an
    update request is reduced to whether the backend reported an error. */
module Dashboard {
  import opened JsValues
  import opened Text
  import Seqs

  /** `LoanStatus`: the dashboard's four statuses. */
  datatype LoanStatus = Pending | Approved | Rejected | EvidenceRequired

  /** The string the backend stores for each status. */
  function StatusName(status: LoanStatus): string
  {
    match status
    case Pending => "Pending"
    case Approved => "Approved"
    case Rejected => "Rejected"
    case EvidenceRequired => "Evidence Required"
  }

  /** A row of `loan_applications` as the dashboard holds it. */
  datatype LoanApplication = LoanApplication(
    id: string,
    applicationId: string,
    customerId: string,
    customerName: string,
    loanAmount: Number,
    status: LoanStatus,
    createdAt: string,
    loanType: Option<string>,
    rejectionReason: Option<string>,
    evidenceRequired: Option<string>)

  // ---------------------------------------------------------------------
  // The search and status filter

  /** The select value that turns the status filter off. */
  const AllStatuses := "all"

  predicate PassesStatusFilter(app: LoanApplication, statusFilter: string)
  {
    statusFilter == AllStatuses || StatusName(app.status) == statusFilter
  }

  /** An empty term matches everything; otherwise the lower-cased term must
      occur in the lower-cased customer name or application id. */
  predicate MatchesSearch(app: LoanApplication, searchTerm: string)
  {
    || searchTerm == ""
    || Includes(Lower(app.customerName), Lower(searchTerm))
    || Includes(Lower(app.applicationId), Lower(searchTerm))
  }

  /** Both conditions at once: the reference the two-pass filter is checked
      against. */
  function Shown(searchTerm: string, statusFilter: string): LoanApplication -> bool
  {
    (app: LoanApplication) => PassesStatusFilter(app, statusFilter) && MatchesSearch(app, searchTerm)
  }

  /** The callback of the status pass. */
  function HasStatus(statusFilter: string): LoanApplication -> bool
  {
    (app: LoanApplication) => StatusName(app.status) == statusFilter
  }

  /** The callback of the search pass; `term` is already lower-cased. */
  function ContainsTerm(term: string): LoanApplication -> bool
  {
    (app: LoanApplication) => Includes(Lower(app.customerName), term) || Includes(Lower(app.applicationId), term)
  }

  /** The filter effect: first the status pass (skipped for 'all'), then the
      search pass (skipped for an empty term). It keeps exactly what one
      pass with both conditions keeps. */
  function FilterApplications(applications: seq<LoanApplication>, searchTerm: string, statusFilter: string)
    : (filtered: seq<LoanApplication>)
    ensures filtered == Seqs.Filter(Shown(searchTerm, statusFilter), applications)
  {
    var byStatus := if statusFilter != AllStatuses then Seqs.Filter(HasStatus(statusFilter), applications) else applications;
    var bySearch := if searchTerm != "" then Seqs.Filter(ContainsTerm(Lower(searchTerm)), byStatus) else byStatus;
    TwoPassesAreOne(applications, searchTerm, statusFilter);
    bySearch
  }

  lemma TwoPassesAreOne(applications: seq<LoanApplication>, searchTerm: string, statusFilter: string)
    ensures (var byStatus := if statusFilter != AllStatuses then Seqs.Filter(HasStatus(statusFilter), applications) else applications;
             var bySearch := if searchTerm != "" then Seqs.Filter(ContainsTerm(Lower(searchTerm)), byStatus) else byStatus;
             bySearch == Seqs.Filter(Shown(searchTerm, statusFilter), applications))
  {
    var shown := Shown(searchTerm, statusFilter);
    var status := HasStatus(statusFilter);
    var search := ContainsTerm(Lower(searchTerm));
    forall i | 0 <= i < |applications|
      ensures shown(applications[i]) ==
        ((statusFilter == AllStatuses || status(applications[i])) && (searchTerm == "" || search(applications[i])))
    {
      ShownIsBothPasses(applications[i], searchTerm, statusFilter);
    }
    if statusFilter != AllStatuses && searchTerm != "" {
      Seqs.FilterTwice(status, search, applications);
      Seqs.FilterAgrees((app: LoanApplication) => status(app) && search(app), shown, applications);
    } else if statusFilter != AllStatuses {
      Seqs.FilterAgrees(status, shown, applications);
    } else if searchTerm != "" {
      Seqs.FilterAgrees(search, shown, applications);
    } else {
      Seqs.FilterKeepsAll(shown, applications);
    }
  }

  lemma ShownIsBothPasses(app: LoanApplication, searchTerm: string, statusFilter: string)
    ensures Shown(searchTerm, statusFilter)(app) ==
      ((statusFilter == AllStatuses || HasStatus(statusFilter)(app)) && (searchTerm == "" || ContainsTerm(Lower(searchTerm))(app)))
  {
  }

  /** The filtered list keeps applications in their loaded order and drops
      some of them. */
  lemma FilteredIsSubsequence(applications: seq<LoanApplication>, searchTerm: string, statusFilter: string)
    ensures Seqs.IsSubsequence(FilterApplications(applications, searchTerm, statusFilter), applications)
  {
    Seqs.FilterIsSubsequence(Shown(searchTerm, statusFilter), applications);
  }

  /** An application is listed exactly when it passes the status filter and
      matches the search term. */
  lemma FilteredMembership(applications: seq<LoanApplication>, searchTerm: string, statusFilter: string, app: LoanApplication)
    ensures app in FilterApplications(applications, searchTerm, statusFilter)
        <==> app in applications && PassesStatusFilter(app, statusFilter) && MatchesSearch(app, searchTerm)
  {
    var filtered := FilterApplications(applications, searchTerm, statusFilter);
    if app in filtered {
      var i :| 0 <= i < |filtered| && filtered[i] == app;
    }
    if app in applications && PassesStatusFilter(app, statusFilter) && MatchesSearch(app, searchTerm) {
      var i :| 0 <= i < |applications| && applications[i] == app;
    }
  }

  /** With 'all' statuses and an empty term every loaded application is
      shown, in order. */
  lemma NoFilterShowsAll(applications: seq<LoanApplication>)
    ensures FilterApplications(applications, "", AllStatuses) == applications
  {
    Seqs.FilterKeepsAll(Shown("", AllStatuses), applications);
  }

  /** With a status selected, every shown application has that status. */
  lemma StatusFilterShowsOnlyThatStatus(applications: seq<LoanApplication>, searchTerm: string, status: LoanStatus)
    ensures forall app :: app in FilterApplications(applications, searchTerm, StatusName(status)) ==> app.status == status
  {
    forall app | app in FilterApplications(applications, searchTerm, StatusName(status))
      ensures app.status == status
    {
      FilteredMembership(applications, searchTerm, StatusName(status), app);
    }
  }

  // ---------------------------------------------------------------------
  // The local update after a successful backend update

  /** The optional fields a handler sends along with the new status
      (`additionalData`). */
  datatype AdditionalData = AdditionalData(rejectionReason: Option<string>, evidenceRequired: Option<string>)

  const NoAdditionalData := AdditionalData(None, None)

  /** `{ ...app, status, ...additionalData }`: the fields present in
      `additional` overwrite, the others stay. */
  function Merged(app: LoanApplication, status: LoanStatus, additional: AdditionalData): LoanApplication
  {
    app.(status := status,
         rejectionReason := if additional.rejectionReason.Some? then additional.rejectionReason else app.rejectionReason,
         evidenceRequired := if additional.evidenceRequired.Some? then additional.evidenceRequired else app.evidenceRequired)
  }

  /** The callback of the `map` over the previous applications. */
  function UpdateRow(id: string, status: LoanStatus, additional: AdditionalData): LoanApplication -> LoanApplication
  {
    (app: LoanApplication) => if app.id == id then Merged(app, status, additional) else app
  }

  /** The applications after the local update: every record whose row id is
      `id` takes the new status and the fields in `additional`; nothing else
      in it or in any other record changes, and the length stays. */
  function WithStatus(applications: seq<LoanApplication>, id: string, status: LoanStatus, additional: AdditionalData)
    : (updated: seq<LoanApplication>)
    ensures |updated| == |applications|
    ensures forall i :: 0 <= i < |applications| && applications[i].id != id ==> updated[i] == applications[i]
    ensures forall i :: 0 <= i < |applications| && applications[i].id == id ==>
      && updated[i].status == status
      && updated[i] == applications[i].(status := status,
                                        rejectionReason := updated[i].rejectionReason,
                                        evidenceRequired := updated[i].evidenceRequired)
      && updated[i].rejectionReason == (if additional.rejectionReason.Some? then additional.rejectionReason else applications[i].rejectionReason)
      && updated[i].evidenceRequired == (if additional.evidenceRequired.Some? then additional.evidenceRequired else applications[i].evidenceRequired)
  {
    Seqs.Map(UpdateRow(id, status, additional), applications)
  }

  /** Applying the same local update twice is applying it once. */
  lemma UpdateIdempotent(applications: seq<LoanApplication>, id: string, status: LoanStatus, additional: AdditionalData)
    ensures WithStatus(WithStatus(applications, id, status, additional), id, status, additional)
         == WithStatus(applications, id, status, additional)
  {
  }

  /** After the update, the updated records are listed under the filter for
      their new status. */
  lemma UpdatedRowsShowUnderNewStatus(applications: seq<LoanApplication>, id: string, status: LoanStatus, additional: AdditionalData)
    ensures forall app :: app in WithStatus(applications, id, status, additional) && app.id == id ==>
      app in FilterApplications(WithStatus(applications, id, status, additional), "", StatusName(status))
  {
    var updated := WithStatus(applications, id, status, additional);
    forall app | app in updated && app.id == id
      ensures app in FilterApplications(updated, "", StatusName(status))
    {
      var i :| 0 <= i < |updated| && updated[i] == app;
      FilteredMembership(updated, "", StatusName(status), app);
    }
  }

  // ---------------------------------------------------------------------
  // The status workflow offered by the action buttons

  datatype Action = Approve | Reject | RequestEvidence

  /** The buttons rendered in a row with the given status. */
  function OfferedActions(status: LoanStatus): (actions: set<Action>)
    ensures actions == {} <==> status == Approved || status == Rejected
    ensures status == Pending || status == EvidenceRequired ==> Approve in actions && Reject in actions
    ensures RequestEvidence in actions <==> status == Pending
  {
    match status
    case Pending => {Approve, Reject, RequestEvidence}
    case EvidenceRequired => {Approve, Reject}
    case Approved => {}
    case Rejected => {}
  }

  /** The status each button's handler asks for. */
  function Target(action: Action): LoanStatus
  {
    match action
    case Approve => Approved
    case Reject => Rejected
    case RequestEvidence => EvidenceRequired
  }

  predicate Offers(from: LoanStatus, to: LoanStatus)
  {
    exists action :: action in OfferedActions(from) && Target(action) == to
  }

  /** The offered transitions: Pending to any of the other three, Evidence
      Required to Approved or Rejected, and nothing out of Approved or
      Rejected. */
  lemma OfferedTransitions(from: LoanStatus, to: LoanStatus)
    ensures Offers(from, to) <==>
      || (from == Pending && to != Pending)
      || (from == EvidenceRequired && (to == Approved || to == Rejected))
  {
    if from == Pending && to != Pending {
      var action := match to case Approved => Approve case Rejected => Reject case _ => RequestEvidence;
      assert action in OfferedActions(from) && Target(action) == to;
    }
    if from == EvidenceRequired && (to == Approved || to == Rejected) {
      var action := if to == Approved then Approve else Reject;
      assert action in OfferedActions(from) && Target(action) == to;
    }
  }

  /** Distance from the start of the workflow. */
  function Stage(status: LoanStatus): nat
  {
    match status
    case Pending => 0
    case EvidenceRequired => 1
    case Approved => 2
    case Rejected => 2
  }

  /** A sequence of statuses each reachable from the previous one by an
      offered button. */
  predicate IsOfferedPath(path: seq<LoanStatus>)
  {
    forall k :: 0 < k < |path| ==> Offers(path[k - 1], path[k])
  }

  /** Every offered button moves an application strictly forward. */
  lemma OfferedMovesForward(from: LoanStatus, to: LoanStatus)
    requires Offers(from, to)
    ensures Stage(from) < Stage(to)
  {
    OfferedTransitions(from, to);
  }

  /** The k-th status of an offered path is at least k stages in. */
  lemma {:induction false} StageGrowsAlongPath(path: seq<LoanStatus>, k: nat)
    requires IsOfferedPath(path) && k < |path|
    ensures Stage(path[k]) >= k
  {
    if k > 0 {
      StageGrowsAlongPath(path, k - 1);
      OfferedMovesForward(path[k - 1], path[k]);
    }
  }

  /** Following offered buttons, an application changes status at most
      twice: the workflow has no cycles, and the only two-step route is
      Pending, then Evidence Required, then Approved or Rejected. */
  lemma OfferedPathsAreShort(path: seq<LoanStatus>)
    requires IsOfferedPath(path)
    ensures |path| <= 3
    ensures |path| == 3 ==> path[0] == Pending && path[1] == EvidenceRequired && (path[2] == Approved || path[2] == Rejected)
  {
    if |path| > 0 {
      StageGrowsAlongPath(path, |path| - 1);
    }
    if |path| == 3 {
      StageGrowsAlongPath(path, 1);
      OfferedMovesForward(path[0], path[1]);
      OfferedMovesForward(path[1], path[2]);
    }
  }

  // ---------------------------------------------------------------------
  // The component's state and handlers

  /** What the backend replied to an update request. */
  datatype Outcome = Succeeded | Failed

  class DashboardView {
    var applications: seq<LoanApplication>
    var searchTerm: string
    var statusFilter: string
    var rejectionReason: string
    var evidenceRequired: string
    var selectedApplication: Option<LoanApplication>
    var isRejectDialogOpen: bool
    var isEvidenceDialogOpen: bool

    /** The initial state once the fetch has delivered `loaded`. */
    constructor (loaded: seq<LoanApplication>)
      ensures applications == loaded && searchTerm == "" && statusFilter == AllStatuses
      ensures rejectionReason == "" && evidenceRequired == "" && selectedApplication == None
      ensures !isRejectDialogOpen && !isEvidenceDialogOpen
      ensures FilteredApplications() == loaded
    {
      applications := loaded;
      searchTerm := "";
      statusFilter := AllStatuses;
      rejectionReason := "";
      evidenceRequired := "";
      selectedApplication := None;
      isRejectDialogOpen := false;
      isEvidenceDialogOpen := false;
      NoFilterShowsAll(loaded);
    }

    /** `filteredApplications`, as the filter effect leaves it after every
        change of its inputs. */
    function FilteredApplications(): (shown: seq<LoanApplication>)
      reads this
      ensures Seqs.IsSubsequence(shown, applications)
      ensures forall i :: 0 <= i < |shown| ==> PassesStatusFilter(shown[i], statusFilter) && MatchesSearch(shown[i], searchTerm)
      ensures forall i ::
        0 <= i < |applications| && PassesStatusFilter(applications[i], statusFilter) && MatchesSearch(applications[i], searchTerm)
        ==> applications[i] in shown
      ensures forall app ::
        multiset(shown)[app] == if PassesStatusFilter(app, statusFilter) && MatchesSearch(app, searchTerm) then multiset(applications)[app] else 0
    {
      FilteredIsSubsequence(applications, searchTerm, statusFilter);
      Seqs.FilterCounts(Shown(searchTerm, statusFilter), applications);
      FilterApplications(applications, searchTerm, statusFilter)
    }

    /** The state `updateApplicationStatus` leaves: on an error nothing
        changes (the throw comes before the local update); on success the
        local update is applied, both dialogs close, both text fields are
        cleared and the selection is dropped. The filter inputs never change. */
    twostate predicate UpdatedBy(id: string, status: LoanStatus, additional: AdditionalData, outcome: Outcome)
      reads this
    {
      && searchTerm == old(searchTerm) && statusFilter == old(statusFilter)
      && (outcome == Failed ==>
            && applications == old(applications)
            && rejectionReason == old(rejectionReason) && evidenceRequired == old(evidenceRequired)
            && selectedApplication == old(selectedApplication)
            && isRejectDialogOpen == old(isRejectDialogOpen) && isEvidenceDialogOpen == old(isEvidenceDialogOpen))
      && (outcome == Succeeded ==>
            && applications == WithStatus(old(applications), id, status, additional)
            && rejectionReason == "" && evidenceRequired == ""
            && selectedApplication == None
            && !isRejectDialogOpen && !isEvidenceDialogOpen)
    }

    method UpdateApplicationStatus(id: string, status: LoanStatus, additional: AdditionalData, outcome: Outcome)
      modifies this
      ensures UpdatedBy(id, status, additional, outcome)
    {
      if outcome == Failed {
        return;
      }
      applications := WithStatus(applications, id, status, additional);
      isRejectDialogOpen := false;
      isEvidenceDialogOpen := false;
      rejectionReason := "";
      evidenceRequired := "";
      selectedApplication := None;
    }

    /** `handleApprove`: asks for Approved with no extra fields, so an earlier
        rejection reason or evidence request stays stored. */
    method HandleApprove(application: LoanApplication, outcome: Outcome)
      modifies this
      ensures UpdatedBy(application.id, Approved, NoAdditionalData, outcome)
    {
      UpdateApplicationStatus(application.id, Approved, NoAdditionalData, outcome);
    }

    method OpenRejectDialog(application: LoanApplication)
      modifies this
      ensures selectedApplication == Some(application) && isRejectDialogOpen
      ensures applications == old(applications) && searchTerm == old(searchTerm) && statusFilter == old(statusFilter)
      ensures rejectionReason == old(rejectionReason) && evidenceRequired == old(evidenceRequired)
      ensures isEvidenceDialogOpen == old(isEvidenceDialogOpen)
    {
      selectedApplication := Some(application);
      isRejectDialogOpen := true;
    }

    method OpenEvidenceDialog(application: LoanApplication)
      modifies this
      ensures selectedApplication == Some(application) && isEvidenceDialogOpen
      ensures applications == old(applications) && searchTerm == old(searchTerm) && statusFilter == old(statusFilter)
      ensures rejectionReason == old(rejectionReason) && evidenceRequired == old(evidenceRequired)
      ensures isRejectDialogOpen == old(isRejectDialogOpen)
    {
      selectedApplication := Some(application);
      isEvidenceDialogOpen := true;
    }

    /** `handleReject`: does nothing without a selected application or with
        an empty reason; otherwise asks for Rejected carrying the reason. */
    method HandleReject(outcome: Outcome)
      modifies this
      ensures old(selectedApplication).None? || old(rejectionReason) == "" ==> unchanged(this)
      ensures old(selectedApplication).Some? && old(rejectionReason) != "" ==>
        UpdatedBy(old(selectedApplication).value.id, Rejected, AdditionalData(Some(old(rejectionReason)), None), outcome)
    {
      if selectedApplication.Some? && rejectionReason != "" {
        UpdateApplicationStatus(selectedApplication.value.id, Rejected, AdditionalData(Some(rejectionReason), None), outcome);
      }
    }

    /** `handleRequestEvidence`: does nothing without a selected application
        or with an empty description; otherwise asks for Evidence Required
        carrying the description. */
    method HandleRequestEvidence(outcome: Outcome)
      modifies this
      ensures old(selectedApplication).None? || old(evidenceRequired) == "" ==> unchanged(this)
      ensures old(selectedApplication).Some? && old(evidenceRequired) != "" ==>
        UpdatedBy(old(selectedApplication).value.id, EvidenceRequired, AdditionalData(None, Some(old(evidenceRequired))), outcome)
    {
      if selectedApplication.Some? && evidenceRequired != "" {
        UpdateApplicationStatus(selectedApplication.value.id, EvidenceRequired, AdditionalData(None, Some(evidenceRequired)), outcome);
      }
    }
  }

  /** A rejection that goes through stores the reason on every row with the
      selected id (what a failed one leaves is stated by
      `DashboardView.UpdatedBy`). */
  lemma RejectionStoresReason(applications: seq<LoanApplication>, id: string, reason: string)
    ensures forall i :: 0 <= i < |applications| && applications[i].id == id ==>
      var row := WithStatus(applications, id, Rejected, AdditionalData(Some(reason), None))[i];
      row.status == Rejected && row.rejectionReason == Some(reason) && row.evidenceRequired == applications[i].evidenceRequired
  {
  }
}
