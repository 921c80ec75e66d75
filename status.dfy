/**
 * The status toggle of a grade inquiry: an integer status where -1 is an open
 * inquiry and 0 a resolved one.
 */
module InquiryStatus {

  const OPEN: int := -1
  const RESOLVED: int := 0

  /** The new status and the event type the toggle reports for it. */
  datatype Toggled = Toggled(status: int, eventType: string)

  /** An open inquiry is resolved; any other status, 0 or not, is reopened. */
  function Toggle(status: int): (r: Toggled)
    ensures r.status == OPEN || r.status == RESOLVED
    ensures r.status != status
    ensures r.eventType == "resolve" || r.eventType == "reopen"
    ensures r.eventType == "resolve" <==> status == OPEN
    ensures r.eventType == "resolve" <==> r.status == RESOLVED
  {
    if status == OPEN then Toggled(RESOLVED, "resolve") else Toggled(OPEN, "reopen")
  }

  /** From -1 or 0, two toggles restore the status, reporting resolve and reopen in turn. */
  lemma ToggleTwiceRestores(status: int)
    requires status == OPEN || status == RESOLVED
    ensures Toggle(Toggle(status).status).status == status
    ensures Toggle(Toggle(status).status).eventType != Toggle(status).eventType
  {
  }

  /** From any other status, the first toggle reopens and the second resolves: the value is not restored. */
  lemma ToggleTwiceFromOtherStatus(status: int)
    requires status != OPEN && status != RESOLVED
    ensures Toggle(status) == Toggled(OPEN, "reopen")
    ensures Toggle(Toggle(status).status) == Toggled(RESOLVED, "resolve")
    ensures Toggle(Toggle(status).status).status != status
  {
  }

  /** A grade inquiry record whose status the controller sets in place. */
  class GradeInquiry {
    const id: int
    var status: int

    constructor (id: int, status: int)
      ensures this.id == id && this.status == status
    {
      this.id := id;
      this.status := status;
    }

    method SetStatus(status: int)
      modifies this
      ensures this.status == status
    {
      this.status := status;
    }
  }
}
