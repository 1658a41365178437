/** The admin's "All Advertisements" table: the status toggle, the status badge and the delete gate. */
module AllAdvertisements {
  import opened Common

  /** The colour of a status badge. */
  datatype Badge = Green | Red | Yellow

  /** A request the table sends. */
  datatype AdRequest = SetStatus(adId: string, status: string) | Delete(adId: string)

  /** `handleChangeStatus`: "pending" becomes "approved", every other status becomes "pending". */
  function ToggleStatus(status: string): (next: string)
    ensures status == "pending" ==> next == "approved"
    ensures status != "pending" ==> next == "pending"
  {
    if status == "pending" then "approved" else "pending"
  }

  /** Toggling twice restores a status exactly when it is "pending" or "approved"; a rejected ad comes back as approved. */
  lemma ToggleTwice(status: string)
    ensures ToggleStatus(ToggleStatus(status)) == status <==> status == "pending" || status == "approved"
    ensures status != "pending" ==> ToggleStatus(ToggleStatus(status)) == "approved"
  {
  }

  /** Toggling always changes the status, to one of the two the toggle knows. */
  lemma ToggleLandsInCycle(status: string)
    ensures ToggleStatus(status) in {"pending", "approved"}
    ensures ToggleStatus(status) != status
  {
  }

  /** The request a status click sends: exactly the toggled value. */
  function StatusRequest(adId: string, currentStatus: string): (r: AdRequest)
    ensures r.SetStatus? && r.adId == adId && r.status == ToggleStatus(currentStatus)
    ensures r.status != currentStatus
  {
    SetStatus(adId, ToggleStatus(currentStatus))
  }

  /** The badge colour: green for "approved", red for "rejected", yellow for anything else. */
  function BadgeFor(status: string): (b: Badge)
    ensures b == Green <==> status == "approved"
    ensures b == Red <==> status == "rejected"
    ensures b == Yellow <==> status != "approved" && status != "rejected"
  {
    if status == "approved" then Green else if status == "rejected" then Red else Yellow
  }

  /** `handleDelete`: the delete request is sent only when the dialog is confirmed. */
  function DeleteRequest(confirmed: bool, adId: string): (r: Option<AdRequest>)
    ensures r.Some? <==> confirmed
    ensures r.Some? ==> r.value == Delete(adId)
  {
    if confirmed then Some(Delete(adId)) else None
  }
}
