/** The job-closure section: an open job is closed and archived; the closed
    view has no control, so closing is one-way. */
module JobClosure {
  datatype Badge = Badge(text: string, cssClass: string)

  function ClosureBadge(isClosed: bool): (b: Badge)
    ensures b.cssClass == "status-cleared" <==> isClosed
    ensures b.text == "Closed & Archived" <==> isClosed
    ensures !isClosed ==> b == Badge("Open", "status-prealert")
  {
    if isClosed then Badge("Closed & Archived", "status-cleared") else Badge("Open", "status-prealert")
  }

  /** The "Close Job" button is rendered only while the job is open. */
  predicate CloseOffered(isClosed: bool) { !isClosed }

  class JobClosureCard {
    var isClosed: bool

    constructor ()
      ensures !isClosed
    {
      isClosed := false;
    }

    /** The only handler; nothing in the card sets `isClosed` back to false. */
    method CloseJob()
      modifies this
      ensures isClosed && !CloseOffered(isClosed)
    {
      isClosed := true;
    }
  }
}
