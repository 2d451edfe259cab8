/** `getStatusColorClass` (src/utils/formatters.ts): the badge classes for an
    application status. The other formatters wrap `Intl` and are not part of
    this model. */
module Formatters {

  const GreenClass := "text-green-600 bg-green-100 border-green-200"
  const RedClass := "text-red-600 bg-red-100 border-red-200"
  const AmberClass := "text-amber-600 bg-amber-100 border-amber-200"

  /** Total over every string: 'Approved' is green, 'Rejected' is red, and
      'Pending' together with every other string (so also 'Evidence
      Required') shares the amber class. */
  function StatusColorClass(status: string): (cls: string)
    ensures cls == GreenClass <==> status == "Approved"
    ensures cls == RedClass <==> status == "Rejected"
    ensures cls == AmberClass <==> status != "Approved" && status != "Rejected"
  {
    if status == "Approved" then GreenClass
    else if status == "Rejected" then RedClass
    else AmberClass
  }

  /** A status the switch does not name falls through to Pending's class. */
  lemma UnlistedStatusLooksPending(status: string)
    requires status != "Approved" && status != "Rejected"
    ensures StatusColorClass(status) == StatusColorClass("Pending")
  {
  }
}
