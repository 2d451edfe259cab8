/** The fallback store (src/utils/storageUtils.ts): two lists kept in the
    browser's local storage, one of loan applications and one of payments.
    The lists are the fields of `LocalStore`; the read-only queries are
    functions of the list that `getLoanApplications()` / `getPayments()`
    return, i.e. of the store's current field value. */
module StorageUtils {
  import opened JsValues
  import opened Text
  import Seqs

  /** The status type of the store (three values, unlike the dashboard's). */
  datatype Status = Pending | Approved | Rejected

  function StatusName(status: Status): string
  {
    match status
    case Pending => "Pending"
    case Approved => "Approved"
    case Rejected => "Rejected"
  }

  datatype LoanApplication = LoanApplication(
    applicationId: string,
    customerName: string,
    loanAmount: Number,
    status: Status,
    createdAt: string)

  datatype Payment = Payment(
    paymentId: string,
    applicationId: string,
    amount: Number,
    paymentDate: string)

  // ---------------------------------------------------------------------
  // Identifiers

  /** The alphabet `generateId` draws from. */
  const Characters: string := "ABCDEFGHIJKLMNOPQRSTUVWXYZ0123456789"

  predicate IsIdChar(c: char)
  {
    'A' <= c <= 'Z' || '0' <= c <= '9'
  }

  /** `id` has the shape `<prefix>-XXXXXX` with six upper-case letters or
      digits after the dash. */
  predicate IsGeneratedId(prefix: string, id: string)
  {
    && |id| == |prefix| + 7
    && id[..|prefix|] == prefix
    && id[|prefix|] == '-'
    && forall k :: |prefix| < k < |id| ==> IsIdChar(id[k])
  }

  /** A value `Math.random()` can return. */
  predicate IsDraw(r: real)
  {
    0.0 <= r < 1.0
  }

  /** The six `Math.random()` values one call of `generateId` consumes. */
  predicate SixDraws(draws: seq<real>)
  {
    |draws| == 6 && forall k :: 0 <= k < 6 ==> IsDraw(draws[k])
  }

  /** `Math.floor(draw * characters.length)`: always a position inside the
      alphabet. */
  function CharIndex(draw: real): (i: nat)
    requires IsDraw(draw)
    ensures i < |Characters|
  {
    (draw * (|Characters| as real)).Floor
  }

  lemma CharactersAreIdChars()
    ensures forall i :: 0 <= i < |Characters| ==> IsIdChar(Characters[i])
  {
  }

  /** `generateId(prefix)`, with the random numbers passed in. */
  method GenerateId(prefix: string, draws: seq<real>) returns (id: string)
    requires SixDraws(draws)
    ensures IsGeneratedId(prefix, id)
    ensures forall k :: 0 <= k < 6 ==> id[|prefix| + 1 + k] == Characters[CharIndex(draws[k])]
  {
    var result := "";
    for i := 0 to 6
      invariant |result| == i
      invariant forall k :: 0 <= k < i ==> result[k] == Characters[CharIndex(draws[k])]
    {
      result := result + [Characters[CharIndex(draws[i])]];
    }
    CharactersAreIdChars();
    id := prefix + "-" + result;
  }

  // ---------------------------------------------------------------------
  // Queries over the stored lists

  /** Case-insensitive exact comparison of the customer name. */
  predicate SameCustomer(app: LoanApplication, customerName: string)
  {
    Lower(app.customerName) == Lower(customerName)
  }

  /** The callback `getApplicationsByCustomer` passes to `filter`. */
  function CustomerFilter(customerName: string): LoanApplication -> bool
  {
    (app: LoanApplication) => SameCustomer(app, customerName)
  }

  /** `getApplicationsByCustomer(customerName)`: exactly the applications
      whose name equals `customerName` ignoring case, in stored order. */
  function ApplicationsByCustomer(applications: seq<LoanApplication>, customerName: string): (r: seq<LoanApplication>)
    ensures forall i :: 0 <= i < |r| ==> r[i] in applications && SameCustomer(r[i], customerName)
    ensures forall i :: 0 <= i < |applications| && SameCustomer(applications[i], customerName) ==> applications[i] in r
    ensures forall app :: multiset(r)[app] == if SameCustomer(app, customerName) then multiset(applications)[app] else 0
    ensures Seqs.IsSubsequence(r, applications)
  {
    Seqs.FilterIsSubsequence(CustomerFilter(customerName), applications);
    Seqs.FilterCounts(CustomerFilter(customerName), applications);
    Seqs.Filter(CustomerFilter(customerName), applications)
  }

  /** Position `i` holds the first application with this id. */
  predicate IsFirstMatch(applications: seq<LoanApplication>, applicationId: string, i: nat)
  {
    && i < |applications|
    && applications[i].applicationId == applicationId
    && forall j :: 0 <= j < i ==> applications[j].applicationId != applicationId
  }

  /** `applications.findIndex(app => app.applicationId === applicationId)`,
      with -1 as `None`. */
  function FindIndex(applications: seq<LoanApplication>, applicationId: string): (r: Option<nat>)
    ensures r.None? <==> forall i :: 0 <= i < |applications| ==> applications[i].applicationId != applicationId
    ensures r.Some? ==> IsFirstMatch(applications, applicationId, r.value)
  {
    if applications == [] then None
    else if applications[0].applicationId == applicationId then Some(0)
    else match FindIndex(applications[1..], applicationId)
      case None => None
      case Some(i) => Some(i + 1)
  }

  /** `getApplicationById(applicationId)`: the first application with that
      id, or nothing (`undefined`) when none has it. */
  function ApplicationById(applications: seq<LoanApplication>, applicationId: string): (r: Option<LoanApplication>)
    ensures r.None? <==> forall i :: 0 <= i < |applications| ==> applications[i].applicationId != applicationId
    ensures r.Some? ==> exists i: nat :: IsFirstMatch(applications, applicationId, i) && r.value == applications[i]
  {
    match FindIndex(applications, applicationId)
    case None => None
    case Some(i) => Some(applications[i])
  }

  /** `getApplicationIds()`: one id per stored application, position by
      position. */
  function ApplicationIds(applications: seq<LoanApplication>): (ids: seq<string>)
    ensures |ids| == |applications|
    ensures forall i :: 0 <= i < |applications| ==> ids[i] == applications[i].applicationId
  {
    Seqs.Map((app: LoanApplication) => app.applicationId, applications)
  }

  /** The callback `getPaymentsByApplication` passes to `filter`. */
  function PaymentFilter(applicationId: string): Payment -> bool
  {
    (p: Payment) => p.applicationId == applicationId
  }

  /** `getPaymentsByApplication(applicationId)`: exactly the payments made on
      that application, in stored order. */
  function PaymentsByApplication(payments: seq<Payment>, applicationId: string): (r: seq<Payment>)
    ensures forall i :: 0 <= i < |r| ==> r[i] in payments && r[i].applicationId == applicationId
    ensures forall i :: 0 <= i < |payments| && payments[i].applicationId == applicationId ==> payments[i] in r
    ensures forall p :: multiset(r)[p] == if p.applicationId == applicationId then multiset(payments)[p] else 0
    ensures Seqs.IsSubsequence(r, payments)
  {
    Seqs.FilterIsSubsequence(PaymentFilter(applicationId), payments);
    Seqs.FilterCounts(PaymentFilter(applicationId), payments);
    Seqs.Filter(PaymentFilter(applicationId), payments)
  }

  /** The application list after `updateApplicationStatus`: the first record
      with the id gets the new status; with no such record the list is as it
      was. Only statuses can change, and only to the new one. */
  function WithStatus(applications: seq<LoanApplication>, applicationId: string, status: Status): (updated: seq<LoanApplication>)
    ensures |updated| == |applications|
    ensures forall i :: 0 <= i < |applications| ==>
      updated[i].(status := applications[i].status) == applications[i]
      && (updated[i].status == applications[i].status || updated[i].status == status)
  {
    match FindIndex(applications, applicationId)
    case None => applications
    case Some(i) => applications[i := applications[i].(status := status)]
  }

  // ---------------------------------------------------------------------
  // Properties of the queries and of the update

  /** An id is listed by `getApplicationIds` exactly when
      `getApplicationById` finds a record for it. */
  lemma ListedIdIsFound(applications: seq<LoanApplication>, applicationId: string)
    ensures applicationId in ApplicationIds(applications) <==> ApplicationById(applications, applicationId).Some?
  {
    var ids := ApplicationIds(applications);
    if applicationId in ids {
      var i :| 0 <= i < |ids| && ids[i] == applicationId;
      assert applications[i].applicationId == applicationId;
    }
  }

  /** `FindIndex` only looks at the ids. */
  lemma {:induction false} FindIndexSeesOnlyIds(a: seq<LoanApplication>, b: seq<LoanApplication>, applicationId: string)
    requires ApplicationIds(a) == ApplicationIds(b)
    ensures FindIndex(a, applicationId) == FindIndex(b, applicationId)
  {
    if a != [] {
      assert ApplicationIds(a)[0] == a[0].applicationId;
      assert ApplicationIds(b)[0] == b[0].applicationId;
      assert ApplicationIds(a[1..]) == ApplicationIds(a)[1..];
      assert ApplicationIds(b[1..]) == ApplicationIds(b)[1..];
      FindIndexSeesOnlyIds(a[1..], b[1..], applicationId);
    }
  }

  /** The update keeps the length and changes nothing but the status of the
      first record carrying the id; when no record carries it, nothing
      changes at all. */
  lemma UpdateTouchesOnlyFirstMatch(applications: seq<LoanApplication>, applicationId: string, status: Status)
    ensures |WithStatus(applications, applicationId, status)| == |applications|
    ensures forall i :: 0 <= i < |applications| ==>
      WithStatus(applications, applicationId, status)[i] ==
        if IsFirstMatch(applications, applicationId, i) then applications[i].(status := status) else applications[i]
    ensures (forall i :: 0 <= i < |applications| ==> applications[i].applicationId != applicationId) ==>
      WithStatus(applications, applicationId, status) == applications
  {
    var after := WithStatus(applications, applicationId, status);
    forall i | 0 <= i < |applications|
      ensures after[i] == if IsFirstMatch(applications, applicationId, i) then applications[i].(status := status) else applications[i]
    {
      match FindIndex(applications, applicationId)
      case None =>
      case Some(m) =>
        assert IsFirstMatch(applications, applicationId, i) <==> i == m;
    }
  }

  /** The update never changes an id. */
  lemma UpdateKeepsIds(applications: seq<LoanApplication>, applicationId: string, status: Status)
    ensures ApplicationIds(WithStatus(applications, applicationId, status)) == ApplicationIds(applications)
  {
    UpdateTouchesOnlyFirstMatch(applications, applicationId, status);
  }

  /** Repeating the same update changes nothing more. */
  lemma UpdateIdempotent(applications: seq<LoanApplication>, applicationId: string, status: Status)
    ensures WithStatus(WithStatus(applications, applicationId, status), applicationId, status)
         == WithStatus(applications, applicationId, status)
  {
    var once := WithStatus(applications, applicationId, status);
    UpdateKeepsIds(applications, applicationId, status);
    FindIndexSeesOnlyIds(once, applications, applicationId);
  }

  /** After a successful update, looking the id up again shows the new
      status on the same record. */
  lemma UpdateIsVisible(applications: seq<LoanApplication>, applicationId: string, status: Status)
    requires ApplicationById(applications, applicationId).Some?
    ensures ApplicationById(WithStatus(applications, applicationId, status), applicationId)
         == Some(ApplicationById(applications, applicationId).value.(status := status))
  {
    UpdateKeepsIds(applications, applicationId, status);
    FindIndexSeesOnlyIds(WithStatus(applications, applicationId, status), applications, applicationId);
  }

  /** A record appended under a fresh id is what a lookup of that id finds. */
  lemma {:induction false} AppendedIsFound(applications: seq<LoanApplication>, app: LoanApplication)
    requires forall i :: 0 <= i < |applications| ==> applications[i].applicationId != app.applicationId
    ensures ApplicationById(applications + [app], app.applicationId) == Some(app)
  {
    var all := applications + [app];
    assert IsFirstMatch(all, app.applicationId, |applications|);
    match FindIndex(all, app.applicationId)
    case Some(i) =>
      assert i == |applications|;
  }

  // ---------------------------------------------------------------------
  // The store itself

  class LocalStore {
    /** The parsed value of the 'loanApplications' key. */
    var applications: seq<LoanApplication>
    /** The parsed value of the 'payments' key. */
    var payments: seq<Payment>

    /** Local storage with neither key set: both lists read as empty. */
    constructor ()
      ensures applications == [] && payments == []
    {
      applications := [];
      payments := [];
    }

    /** `saveLoanApplication`: appends one new record, status Pending, that
        copies the name and amount and carries a fresh `APP-` id. */
    method SaveLoanApplication(customerName: string, loanAmount: Number, draws: seq<real>, now: string)
      returns (app: LoanApplication)
      requires SixDraws(draws)
      modifies this
      ensures applications == old(applications) + [app]
      ensures payments == old(payments)
      ensures app.customerName == customerName && app.loanAmount == loanAmount
      ensures app.status == Pending && app.createdAt == now
      ensures IsGeneratedId("APP", app.applicationId)
      ensures (forall i :: 0 <= i < |old(applications)| ==> old(applications)[i].applicationId != app.applicationId)
              ==> ApplicationById(applications, app.applicationId) == Some(app)
    {
      var applicationId := GenerateId("APP", draws);
      app := LoanApplication(applicationId, customerName, loanAmount, Pending, now);
      if forall i :: 0 <= i < |applications| ==> applications[i].applicationId != app.applicationId {
        AppendedIsFound(applications, app);
      }
      applications := applications + [app];
    }

    /** `updateApplicationStatus`: rewrites the status of the first record
        with the id and reports whether there was one. */
    method UpdateApplicationStatus(applicationId: string, status: Status) returns (ok: bool)
      modifies this
      ensures ok <==> applicationId in ApplicationIds(old(applications))
      ensures applications == WithStatus(old(applications), applicationId, status)
      ensures payments == old(payments)
    {
      ListedIdIsFound(applications, applicationId);
      var index := FindIndex(applications, applicationId);
      if index.Some? {
        applications := applications[index.value := applications[index.value].(status := status)];
        ok := true;
      } else {
        ok := false;
      }
    }

    /** `savePayment`: appends one payment on the given application with a
        fresh `PAY-` id. */
    method SavePayment(applicationId: string, amount: Number, draws: seq<real>, now: string)
      returns (payment: Payment)
      requires SixDraws(draws)
      modifies this
      ensures payments == old(payments) + [payment]
      ensures applications == old(applications)
      ensures payment.applicationId == applicationId && payment.amount == amount
      ensures payment.paymentDate == now
      ensures IsGeneratedId("PAY", payment.paymentId)
      ensures PaymentsByApplication(payments, applicationId) == PaymentsByApplication(old(payments), applicationId) + [payment]
    {
      var paymentId := GenerateId("PAY", draws);
      payment := Payment(paymentId, applicationId, amount, now);
      PaymentsAppend(payments, payment);
      payments := payments + [payment];
    }

    /** `clearAllData`: removes both keys, so both lists read as empty. */
    method ClearAllData()
      modifies this
      ensures applications == [] && payments == []
    {
      applications := [];
      payments := [];
    }
  }

  /** Appending a payment extends the list of its own application by exactly
      that payment and leaves every other application's list alone. */
  lemma PaymentsAppend(payments: seq<Payment>, payment: Payment)
    ensures PaymentsByApplication(payments + [payment], payment.applicationId)
         == PaymentsByApplication(payments, payment.applicationId) + [payment]
    ensures forall id :: id != payment.applicationId ==>
      PaymentsByApplication(payments + [payment], id) == PaymentsByApplication(payments, id)
  {
    Seqs.FilterAppend(PaymentFilter(payment.applicationId), payments, payment);
    forall id | id != payment.applicationId
      ensures PaymentsByApplication(payments + [payment], id) == PaymentsByApplication(payments, id)
    {
      Seqs.FilterAppend(PaymentFilter(id), payments, payment);
    }
  }
}
