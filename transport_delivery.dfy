/** The transport-and-delivery section: a carrier select, a proof-of-delivery
    upload and the delivery status both of them drive. */
module TransportDelivery {
  import opened Common

  datatype DeliveryStatus = Pending | InTransit | Delivered

  /** The values of the carrier select's items. */
  const Carriers: seq<string> := ["xpo", "jbhunt", "schneider", "fedex", "ups"]

  datatype State = State(carrier: string, podUploaded: bool, deliveryStatus: DeliveryStatus)

  const Initial := State("", false, Pending)

  function Label(s: DeliveryStatus): string
  {
    match s
    case Pending => "Pending Pickup"
    case InTransit => "In Transit"
    case Delivered => "Delivered"
  }

  function BadgeClass(s: DeliveryStatus): string
  {
    match s
    case Delivered => "status-delivered"
    case InTransit => "status-submitted"
    case Pending => "status-prealert"
  }

  lemma LabelAndClassDistinct(s: DeliveryStatus, t: DeliveryStatus)
    ensures Label(s) == Label(t) <==> s == t
    ensures BadgeClass(s) == BadgeClass(t) <==> s == t
  {
  }

  /** Choosing a carrier in the select, or clicking "Upload POD". */
  datatype Action = SelectCarrier(value: string) | UploadPod

  /** The select is always shown and offers the five carriers; the upload button is
      rendered only until a POD is uploaded and is disabled while no carrier is chosen. */
  predicate Offered(s: State, a: Action)
  {
    match a
    case SelectCarrier(v) => v in Carriers
    case UploadPod => !s.podUploaded && s.carrier != ""
  }

  /** What the handlers set: a carrier change always moves to in-transit; an upload
      marks the POD and delivers. Nothing else changes. */
  function Step(s: State, a: Action): State
  {
    match a
    case SelectCarrier(v) => s.(carrier := v, deliveryStatus := InTransit)
    case UploadPod => s.(podUploaded := true, deliveryStatus := Delivered)
  }

  /** The states reachable through the rendered controls: pending exactly while no carrier
      is chosen, a POD only once a carrier is chosen, and delivered only with a POD. */
  predicate Consistent(s: State)
  {
    && (s.deliveryStatus == Pending <==> s.carrier == "")
    && (s.podUploaded ==> s.carrier != "")
    && (s.deliveryStatus == Delivered ==> s.podUploaded)
  }

  /** Offered actions keep the state consistent, a POD once uploaded stays uploaded, and
      after an upload the upload control is no longer offered. */
  lemma StepKeepsConsistent(s: State, a: Action)
    requires Consistent(s) && Offered(s, a)
    ensures Consistent(Step(s, a))
    ensures s.podUploaded ==> Step(s, a).podUploaded
    ensures Step(s, a).podUploaded ==> !Offered(Step(s, a), UploadPod)
  {
  }

  /** Selecting a carrier after delivery shows 'in transit' again although the POD stays uploaded. */
  lemma ReselectAfterDelivery(s: State, v: string)
    requires s.deliveryStatus == Delivered && Offered(s, SelectCarrier(v))
    ensures Step(s, SelectCarrier(v)).deliveryStatus == InTransit
    ensures Step(s, SelectCarrier(v)).podUploaded == s.podUploaded
  {
  }

  function Run(s: State, clicks: seq<Action>): Option<State>
    decreases |clicks|
  {
    if clicks == [] then Some(s)
    else if Offered(s, clicks[0]) then Run(Step(s, clicks[0]), clicks[1..])
    else None
  }

  /** Every run of offered actions from the initial state ends in a consistent state. */
  lemma {:induction false} RunKeepsConsistent(s: State, clicks: seq<Action>)
    requires Consistent(s)
    ensures Run(s, clicks).Some? ==> Consistent(Run(s, clicks).value)
    decreases |clicks|
  {
    if clicks != [] && Offered(s, clicks[0]) {
      StepKeepsConsistent(s, clicks[0]);
      RunKeepsConsistent(Step(s, clicks[0]), clicks[1..]);
    }
  }

  lemma InitialConsistent()
    ensures Consistent(Initial) && !Offered(Initial, UploadPod)
  {
  }

  class TransportDeliveryCard {
    var carrier: string
    var podUploaded: bool
    var deliveryStatus: DeliveryStatus

    function Current(): State
      reads this
    {
      State(carrier, podUploaded, deliveryStatus)
    }

    constructor ()
      ensures Current() == Initial
    {
      carrier := "";
      podUploaded := false;
      deliveryStatus := Pending;
    }

    /** The select's change handler. */
    method HandleCarrierChange(v: string)
      modifies this
      ensures Current() == Step(old(Current()), SelectCarrier(v))
    {
      carrier := v;
      deliveryStatus := InTransit;
    }

    method HandleUploadPod()
      modifies this
      ensures Current() == Step(old(Current()), UploadPod)
    {
      podUploaded := true;
      deliveryStatus := Delivered;
    }
  }
}
