/** The customs-submission section: ready, submitted to CBP, accepted. The
    accepted view's only button has no handler, so 'accepted' is terminal. */
module CustomsSubmission {
  import opened Common

  datatype SubmissionStatus = Ready | Submitted | Accepted

  /** "Submit to CBP" and "Simulate Acceptance". */
  datatype Action = SubmitToCbp | SimulateAcceptance

  const Initial := Ready

  function Label(s: SubmissionStatus): string
  {
    match s
    case Ready => "Ready to Submit"
    case Submitted => "Pending CBP"
    case Accepted => "Accepted"
  }

  function BadgeClass(s: SubmissionStatus): string
  {
    match s
    case Accepted => "status-cleared"
    case Submitted => "status-submitted"
    case Ready => "status-created"
  }

  lemma LabelAndClassDistinct(s: SubmissionStatus, t: SubmissionStatus)
    ensures Label(s) == Label(t) <==> s == t
    ensures BadgeClass(s) == BadgeClass(t) <==> s == t
  {
  }

  function Rank(s: SubmissionStatus): nat
  {
    match s
    case Ready => 0
    case Submitted => 1
    case Accepted => 2
  }

  predicate Offered(s: SubmissionStatus, a: Action)
  {
    match a
    case SubmitToCbp => s == Ready
    case SimulateAcceptance => s == Submitted
  }

  function Target(a: Action): SubmissionStatus
  {
    match a
    case SubmitToCbp => Submitted
    case SimulateAcceptance => Accepted
  }

  lemma OfferedStepsForward(s: SubmissionStatus, a: Action)
    ensures Offered(s, a) ==> Rank(Target(a)) == Rank(s) + 1
    ensures s == Accepted ==> !Offered(s, a)
  {
  }

  function Run(s: SubmissionStatus, clicks: seq<Action>): Option<SubmissionStatus>
    decreases |clicks|
  {
    if clicks == [] then Some(s)
    else if Offered(s, clicks[0]) then Run(Target(clicks[0]), clicks[1..])
    else None
  }

  /** Runs of rendered clicks advance one rank per click and end by 'accepted'. */
  lemma {:induction false} RunAdvances(s: SubmissionStatus, clicks: seq<Action>)
    ensures Run(s, clicks).Some? ==> Rank(Run(s, clicks).value) == Rank(s) + |clicks|
    ensures Run(s, clicks).Some? ==> Rank(s) + |clicks| <= 2
    decreases |clicks|
  {
    if clicks != [] && Offered(s, clicks[0]) {
      RunAdvances(Target(clicks[0]), clicks[1..]);
    }
  }

  class CustomsSubmissionCard {
    var status: SubmissionStatus

    constructor ()
      ensures status == Initial
    {
      status := Ready;
    }

    method Click(a: Action)
      requires Offered(status, a)
      modifies this
      ensures status == Target(a) && Rank(status) == Rank(old(status)) + 1
    {
      match a
      case SubmitToCbp => status := Submitted;
      case SimulateAcceptance => status := Accepted;
    }
  }
}
