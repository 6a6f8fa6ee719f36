/** The customer-approval section: an approval request that is sent and then
    (in the demo) approved. Each button is rendered only in its source state, so
    the machine only moves forward and 'approved' is terminal. */
module CustomerApproval {
  import opened Common

  datatype ApprovalStatus = Pending | Sent | Approved

  /** The two buttons: "Send for Approval" and "Simulate Approval". */
  datatype Action = SendForApproval | SimulateApproval

  const Initial := Pending

  function Label(s: ApprovalStatus): string
  {
    match s
    case Pending => "Not Sent"
    case Sent => "Awaiting Response"
    case Approved => "Approved"
  }

  function BadgeClass(s: ApprovalStatus): string
  {
    match s
    case Approved => "status-cleared"
    case Sent => "status-pending"
    case Pending => "status-prealert"
  }

  /** Each state shows its own label and badge class. */
  lemma LabelAndClassDistinct(s: ApprovalStatus, t: ApprovalStatus)
    ensures Label(s) == Label(t) <==> s == t
    ensures BadgeClass(s) == BadgeClass(t) <==> s == t
  {
  }

  /** Position of a state along the workflow. */
  function Rank(s: ApprovalStatus): nat
  {
    match s
    case Pending => 0
    case Sent => 1
    case Approved => 2
  }

  /** The button for an action is rendered only in the action's source state. */
  predicate Offered(s: ApprovalStatus, a: Action)
  {
    match a
    case SendForApproval => s == Pending
    case SimulateApproval => s == Sent
  }

  /** What a handler sets, whatever the state it is called in. */
  function Target(a: Action): ApprovalStatus
  {
    match a
    case SendForApproval => Sent
    case SimulateApproval => Approved
  }

  /** An offered action moves exactly one step forward; 'approved' offers nothing. */
  lemma OfferedStepsForward(s: ApprovalStatus, a: Action)
    ensures Offered(s, a) ==> Rank(Target(a)) == Rank(s) + 1
    ensures s == Approved ==> !Offered(s, a)
  {
  }

  /** Replays clicks on rendered buttons; None as soon as a click hits a button that is not shown. */
  function Run(s: ApprovalStatus, clicks: seq<Action>): Option<ApprovalStatus>
    decreases |clicks|
  {
    if clicks == [] then Some(s)
    else if Offered(s, clicks[0]) then Run(Target(clicks[0]), clicks[1..])
    else None
  }

  /** Every run of rendered clicks from the initial state advances one rank per click,
      so there are no backward transitions and at most two clicks ever succeed. */
  lemma {:induction false} RunAdvances(s: ApprovalStatus, clicks: seq<Action>)
    ensures Run(s, clicks).Some? ==> Rank(Run(s, clicks).value) == Rank(s) + |clicks|
    ensures Run(s, clicks).Some? ==> Rank(s) + |clicks| <= 2
    decreases |clicks|
  {
    if clicks != [] && Offered(s, clicks[0]) {
      RunAdvances(Target(clicks[0]), clicks[1..]);
    }
  }

  class CustomerApprovalCard {
    var status: ApprovalStatus

    constructor ()
      ensures status == Initial
    {
      status := Pending;
    }

    method HandleSendApproval()
      modifies this
      ensures status == Target(SendForApproval)
    {
      status := Sent;
    }

    method HandleSimulateApproval()
      modifies this
      ensures status == Target(SimulateApproval)
    {
      status := Approved;
    }

    /** A click on a rendered button: the state moves one rank forward. */
    method Click(a: Action)
      requires Offered(status, a)
      modifies this
      ensures status == Target(a) && Rank(status) == Rank(old(status)) + 1
    {
      match a
      case SendForApproval => HandleSendApproval();
      case SimulateApproval => HandleSimulateApproval();
    }
  }
}
