/** The form validators (src/utils/validators.ts): four side-effect-free
    predicates that gate the application and payment forms. */
module Validators {
  import opened JsValues
  import opened Text

  /** `name` holds two non-whitespace characters at distinct positions. */
  ghost predicate HasTwoNonSpace(name: string)
  {
    exists i, j :: 0 <= i < j < |name| && !IsSpace(name[i]) && !IsSpace(name[j])
  }

  /** `validateName`: the trimmed name has at least two characters, which is
      the same as the name having two non-whitespace characters. */
  function ValidateName(name: string): (ok: bool)
    ensures ok <==> HasTwoNonSpace(name)
  {
    TrimmedLengthCountsNonSpace(name);
    |Trim(name)| >= 2
  }

  lemma TrimmedLengthCountsNonSpace(name: string)
    ensures |Trim(name)| >= 2 <==> HasTwoNonSpace(name)
  {
    var r := Trim(name);
    var a: nat :| TrimmedAt(name, r, a);
    if |r| >= 2 {
      TrimmedEndsAreNonSpace(name, r, a);
    }
    if HasTwoNonSpace(name) {
      NonSpaceInsideTrim(name, r, a);
    }
  }

  lemma TrimmedEndsAreNonSpace(name: string, r: string, a: nat)
    requires 2 <= |r| && TrimmedAt(name, r, a)
    requires !IsSpace(r[0]) && !IsSpace(r[|r| - 1])
    ensures HasTwoNonSpace(name)
  {
    assert name[a] == r[0] && name[a + |r| - 1] == r[|r| - 1];
  }

  lemma NonSpaceInsideTrim(name: string, r: string, a: nat)
    requires TrimmedAt(name, r, a) && HasTwoNonSpace(name)
    ensures |r| >= 2
  {
    var i, j :| 0 <= i < j < |name| && !IsSpace(name[i]) && !IsSpace(name[j]);
    SpaceOutsideTrim(name, r, a);
    assert a <= i && j < a + |r|;
  }

  lemma SpaceOutsideTrim(name: string, r: string, a: nat)
    requires TrimmedAt(name, r, a)
    ensures forall k :: 0 <= k < a ==> IsSpace(name[k])
    ensures forall k :: a + |r| <= k < |name| ==> IsSpace(name[k])
  {
    forall k | 0 <= k < a
      ensures IsSpace(name[k])
    {
      assert name[..a][k] == name[k];
    }
    forall k | a + |r| <= k < |name|
      ensures IsSpace(name[k])
    {
      assert name[a + |r|..][k - a - |r|] == name[k];
    }
  }

  /** Whitespace around a name never changes whether it is accepted. */
  lemma ValidateNameIgnoresPadding(lead: string, name: string, trail: string)
    requires AllSpace(lead) && AllSpace(trail)
    ensures ValidateName(lead + name + trail) == ValidateName(name)
  {
    TrimIgnoresPadding(lead, name, trail);
  }

  /** Blank names and one-character names are rejected. */
  lemma {:induction false} ShortOrBlankNamesRejected(name: string)
    requires AllSpace(name) || |name| < 2
    ensures !ValidateName(name)
  {
    assert forall i, j :: 0 <= i < j < |name| ==> IsSpace(name[i]) || IsSpace(name[j]);
  }

  /** `validateLoanAmount`: not NaN and 100 <= amount <= 100000, both bounds
      inclusive; the infinities fail one of the two bounds. */
  function ValidateLoanAmount(amount: Number): (ok: bool)
    ensures ok <==> amount.Finite? && 100.0 <= amount.value <= 100000.0
  {
    !IsNaN(amount) && AtLeast(amount, 100.0) && AtMost(amount, 100000.0)
  }

  /** `validatePaymentAmount`: not NaN and amount > 0, so zero and negative
      amounts fail while positive infinity passes. */
  function ValidatePaymentAmount(amount: Number): (ok: bool)
    ensures ok <==> amount == PosInfinity || (amount.Finite? && amount.value > 0.0)
  {
    !IsNaN(amount) && GreaterThan(amount, 0.0)
  }

  /** Every acceptable loan amount is also an acceptable payment amount. */
  lemma LoanAmountIsPaymentAmount(amount: Number)
    requires ValidateLoanAmount(amount)
    ensures ValidatePaymentAmount(amount)
  {
  }

  /** `validateApplicationId`: defined (not `undefined`) and not the empty
      string. */
  function ValidateApplicationId(applicationId: Option<string>): (ok: bool)
    ensures ok <==> applicationId.Some? && |applicationId.value| > 0
  {
    applicationId != None && applicationId != Some("")
  }

  /** The boundary cases of the loan-amount range and two sample names. */
  lemma ValidatorExamples()
    ensures !ValidateLoanAmount(Finite(99.99)) && ValidateLoanAmount(Finite(100.0))
    ensures ValidateLoanAmount(Finite(100000.0)) && !ValidateLoanAmount(Finite(100000.01))
    ensures !ValidatePaymentAmount(Finite(0.0)) && !ValidatePaymentAmount(NaN)
    ensures !ValidateName(" a ") && ValidateName("Al")
  {
    assert !IsSpace("Al"[0]) && !IsSpace("Al"[1]);
    assert IsSpace(" a "[0]) && IsSpace(" a "[2]);
  }
}
