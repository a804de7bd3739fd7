/**
  The status pill of src/components/ui/StatusBadge.tsx: a colour chosen from
  the lower-cased status, and the status shown with its first character
  upper-cased.
 */
module StatusBadge {
  import Text

  const GreenClasses := "bg-green-100 text-green-800"
  const RedClasses := "bg-red-100 text-red-800"
  const BlueClasses := "bg-blue-100 text-blue-800"
  const YellowClasses := "bg-yellow-100 text-yellow-800"
  const GrayClasses := "bg-gray-100 text-gray-800"

  predicate IsGreen(s: string) { s == "active" || s == "paid" || s == "succeeded" }
  predicate IsRed(s: string) { s == "inactive" || s == "overdue" || s == "failed" }
  predicate IsBlue(s: string) { s == "sent" || s == "trialing" }
  predicate IsYellow(s: string) { s == "draft" || s == "pending" }

  /** `getStatusClasses(status)`: the switch on `status.toLowerCase()`;
      canceled, cancelled and every status not listed are gray. */
  function StatusClasses(status: string): (r: string)
    ensures r == GreenClasses <==> IsGreen(Text.Lower(status))
    ensures r == RedClasses <==> IsRed(Text.Lower(status))
    ensures r == BlueClasses <==> IsBlue(Text.Lower(status))
    ensures r == YellowClasses <==> IsYellow(Text.Lower(status))
    ensures r == GrayClasses <==>
      !IsGreen(Text.Lower(status)) && !IsRed(Text.Lower(status))
      && !IsBlue(Text.Lower(status)) && !IsYellow(Text.Lower(status))
  {
    var s := Text.Lower(status);
    if s == "active" || s == "paid" || s == "succeeded" then GreenClasses
    else if s == "inactive" || s == "overdue" || s == "failed" then RedClasses
    else if s == "sent" || s == "trialing" then BlueClasses
    else if s == "canceled" || s == "cancelled" then GrayClasses
    else if s == "draft" || s == "pending" then YellowClasses
    else GrayClasses
  }

  /** The colour does not depend on the status's letter case. */
  lemma ClassesIgnoreCase(status: string)
    ensures StatusClasses(Text.Upper(status)) == StatusClasses(status)
    ensures StatusClasses(Text.Lower(status)) == StatusClasses(status)
  {
    Text.LowerOfUpper(status);
    Text.LowerIdempotent(status);
  }

  /** `status.charAt(0).toUpperCase() + status.slice(1)`. */
  function Label(status: string): (r: string)
    ensures |r| == |status|
    ensures status == [] ==> r == []
    ensures status != [] ==> r[0] == Text.UpperChar(status[0]) && r[1..] == status[1..]
  {
    if status == [] then [] else [Text.UpperChar(status[0])] + status[1..]
  }

  /** Capitalising an already capitalised label changes nothing. */
  lemma LabelIdempotent(status: string)
    ensures Label(Label(status)) == Label(status)
  {
    if status != [] {
      assert Text.UpperChar(Text.UpperChar(status[0])) == Text.UpperChar(status[0]);
    }
  }
}
