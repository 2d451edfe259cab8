/** The customer-facing applications table
    (src/components/loan/ApplicationsTable.tsx): a search by customer name
    against the fallback store, and, in admin mode, status buttons that
    write to the store and then patch the displayed list instead of
    searching again. */
module ApplicationsTable {
  import opened JsValues
  import opened Text
  import opened StorageUtils
  import Seqs
  import Formatters

  /** The `map` callback in `handleStatusChange`. */
  function Restatus(applicationId: string, newStatus: Status): LoanApplication -> LoanApplication
  {
    (app: LoanApplication) => if app.applicationId == applicationId then app.(status := newStatus) else app
  }

  /** The displayed list after `handleStatusChange`: every row carrying the
      id gets the new status, every other row and every other field stays,
      and so does the length. */
  function LocalStatusChange(applications: seq<LoanApplication>, applicationId: string, newStatus: Status)
    : (updated: seq<LoanApplication>)
    ensures |updated| == |applications|
    ensures forall i :: 0 <= i < |applications| && applications[i].applicationId == applicationId ==>
      updated[i].status == newStatus && updated[i].(status := applications[i].status) == applications[i]
    ensures forall i :: 0 <= i < |applications| && applications[i].applicationId != applicationId ==>
      updated[i] == applications[i]
  {
    Seqs.Map(Restatus(applicationId, newStatus), applications)
  }

  /** No two stored applications share an id (the ids are random, and
      nothing checks them for collisions). */
  predicate UniqueIds(applications: seq<LoanApplication>)
  {
    forall i, j ::
      0 <= i < |applications| && 0 <= j < |applications| && applications[i].applicationId == applications[j].applicationId
      ==> i == j
  }

  /** With unique ids, the store's first-match update and the table's
      all-matches update agree. */
  lemma StoreUpdateIsLocalUpdate(applications: seq<LoanApplication>, applicationId: string, newStatus: Status)
    requires UniqueIds(applications)
    ensures WithStatus(applications, applicationId, newStatus) == LocalStatusChange(applications, applicationId, newStatus)
  {
    UpdateTouchesOnlyFirstMatch(applications, applicationId, newStatus);
  }

  /** "Update local state without refetching" is sound when the ids are
      unique: patching the displayed search result gives what searching the
      updated store again would give. */
  lemma LocalUpdateMatchesRefetch(applications: seq<LoanApplication>, customerName: string, applicationId: string, newStatus: Status)
    requires UniqueIds(applications)
    ensures LocalStatusChange(ApplicationsByCustomer(applications, customerName), applicationId, newStatus)
         == ApplicationsByCustomer(WithStatus(applications, applicationId, newStatus), customerName)
  {
    StoreUpdateIsLocalUpdate(applications, applicationId, newStatus);
    Seqs.FilterMapCommute(CustomerFilter(customerName), Restatus(applicationId, newStatus), applications);
  }

  /** Without unique ids the patched list and a fresh search can differ: two
      rows of one customer with the same id are both patched, while the
      store changes only the first. */
  lemma DuplicateIdsBreakRefetchAgreement()
    ensures exists applications: seq<LoanApplication>, customerName, applicationId, newStatus ::
      LocalStatusChange(ApplicationsByCustomer(applications, customerName), applicationId, newStatus)
        != ApplicationsByCustomer(WithStatus(applications, applicationId, newStatus), customerName)
  {
    var row := LoanApplication("APP-AAAAAA", "Jane", Finite(500.0), Pending, "");
    var approved := row.(status := Approved);
    var applications := [row, row];
    assert CustomerFilter("Jane")(row) && CustomerFilter("Jane")(approved);
    Seqs.FilterKeepsAll(CustomerFilter("Jane"), applications);
    assert FindIndex(applications, "APP-AAAAAA") == Some(0);
    assert WithStatus(applications, "APP-AAAAAA", Approved) == [approved, row];
    Seqs.FilterKeepsAll(CustomerFilter("Jane"), [approved, row]);
    var patched := LocalStatusChange(applications, "APP-AAAAAA", Approved);
    assert patched[1] == approved;
    assert LocalStatusChange(ApplicationsByCustomer(applications, "Jane"), "APP-AAAAAA", Approved)
        != ApplicationsByCustomer(WithStatus(applications, "APP-AAAAAA", Approved), "Jane");
  }

  /** The status buttons rendered for a row: each of the three statuses
      exactly once in admin mode, whatever the row's current status; none
      otherwise. */
  function StatusButtons(adminMode: bool, current: Status): (choices: seq<Status>)
    ensures adminMode ==> |choices| == 3 && Pending in choices && Approved in choices && Rejected in choices
    ensures !adminMode ==> choices == []
  {
    if adminMode then [Approved, Rejected, Pending] else []
  }

  /** The badge of each row (`getStatusColorClass(app.status)`): the three
      store statuses get three different classes. */
  lemma StatusBadgesDiffer(s: Status, t: Status)
    requires s != t
    ensures Formatters.StatusColorClass(StatusName(s)) != Formatters.StatusColorClass(StatusName(t))
  {
  }

  class ApplicationsTableView {
    const store: LocalStore
    var customerName: string
    var applications: seq<LoanApplication>
    var isLoading: bool
    var searchPerformed: bool
    var adminMode: bool
    /** The name the displayed list was last searched for. */
    ghost var searchedName: string

    /** The displayed list is what the store holds for the searched name. */
    ghost predicate ShowsStore()
      reads this, store
    {
      applications == ApplicationsByCustomer(store.applications, searchedName)
    }

    constructor (store: LocalStore)
      ensures this.store == store
      ensures customerName == "" && applications == []
      ensures !isLoading && !searchPerformed && !adminMode
    {
      this.store := store;
      customerName := "";
      applications := [];
      isLoading := false;
      searchPerformed := false;
      adminMode := false;
      searchedName := "";
    }

    /** The name field's `onChange`. */
    method SetCustomerName(name: string)
      modifies this
      ensures customerName == name
      ensures applications == old(applications) && searchedName == old(searchedName)
      ensures isLoading == old(isLoading) && searchPerformed == old(searchPerformed) && adminMode == old(adminMode)
    {
      customerName := name;
    }

    /** The lock button. */
    method ToggleAdminMode()
      modifies this
      ensures adminMode == !old(adminMode)
      ensures customerName == old(customerName) && applications == old(applications) && searchedName == old(searchedName)
      ensures isLoading == old(isLoading) && searchPerformed == old(searchPerformed)
    {
      adminMode := !adminMode;
    }

    /** `handleSearch`: nothing happens for a name that trims to empty;
        otherwise the list becomes the store's applications for that name. */
    method HandleSearch()
      modifies this
      ensures Trim(old(customerName)) == "" ==> unchanged(this)
      ensures Trim(old(customerName)) != "" ==>
        && applications == ApplicationsByCustomer(store.applications, customerName)
        && searchPerformed && !isLoading
        && searchedName == customerName && ShowsStore()
        && customerName == old(customerName) && adminMode == old(adminMode)
    {
      if Trim(customerName) == "" {
        return;
      }
      isLoading := true;
      searchPerformed := true;
      applications := ApplicationsByCustomer(store.applications, customerName);
      searchedName := customerName;
      isLoading := false;
    }

    /** `handleStatusChange`: writes the status to the store, ignores whether
        the store found the id, and patches every displayed row with that id.
        When the list showed the store and the stored ids are unique, it
        still shows the store afterwards. */
    method HandleStatusChange(applicationId: string, newStatus: Status)
      modifies this, store
      ensures store.applications == WithStatus(old(store.applications), applicationId, newStatus)
      ensures store.payments == old(store.payments)
      ensures applications == LocalStatusChange(old(applications), applicationId, newStatus)
      ensures customerName == old(customerName) && searchedName == old(searchedName)
      ensures isLoading == old(isLoading) && searchPerformed == old(searchPerformed) && adminMode == old(adminMode)
      ensures old(ShowsStore()) && UniqueIds(old(store.applications)) ==> ShowsStore()
    {
      ghost var before := store.applications;
      var _ := store.UpdateApplicationStatus(applicationId, newStatus);
      applications := LocalStatusChange(applications, applicationId, newStatus);
      if applications == LocalStatusChange(ApplicationsByCustomer(before, searchedName), applicationId, newStatus) && UniqueIds(before) {
        LocalUpdateMatchesRefetch(before, searchedName, applicationId, newStatus);
      }
    }
  }
}
