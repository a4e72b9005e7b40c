/**
 * What the result modal shows for a status and a reason: the header icon,
 * the upper-cased title and the reason text with its empty-reason fallback.
 */
module ResultModal {
  import opened Text

  const NoIngredientsText := "No ingredients found."

  /** `getIcon`: one icon per verdict, and 'search' for every other status. */
  function Icon(status: string): (icon: string)
    ensures icon == "checkmark-circle" <==> status == "Halal"
    ensures icon == "alert-circle" <==> status == "Haram"
    ensures icon == "help-circle" <==> status == "Mushbooh"
    ensures icon == "search" <==> status !in {"Halal", "Haram", "Mushbooh"}
  {
    if status == "Halal" then "checkmark-circle"
    else if status == "Haram" then "alert-circle"
    else if status == "Mushbooh" then "help-circle"
    else "search"
  }

  /** `reason || "No ingredients found."`: never empty, and a non-empty reason is shown as it is. */
  function DisplayReason(reason: string): (shown: string)
    ensures shown != ""
    ensures reason != "" ==> shown == reason
    ensures reason == "" ==> shown == NoIngredientsText
  {
    if reason != "" then reason else NoIngredientsText
  }

  /** `status.toUpperCase()`: as long as the status, with no lower-case letter left. */
  function Title(status: string): (title: string)
    ensures |title| == |status|
    ensures forall i :: 0 <= i < |title| ==> !IsLowerAscii(title[i])
  {
    Upper(status)
  }

  /** The title is the status in capitals: the same text up to case, with no lower-case letter left. */
  lemma TitleIsStatusUpperCased(status: string)
    ensures |Title(status)| == |status|
    ensures Lower(Title(status)) == Lower(status)
    ensures forall i :: 0 <= i < |status| ==> !IsLowerAscii(Title(status)[i])
    ensures Title(Title(status)) == Title(status)
  {
    var t := Title(status);
    forall i | 0 <= i < |t| ensures UpperChar(t[i]) == t[i] {
    }
  }
}
