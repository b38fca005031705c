/**
 * The simulated payment dialog (components/PaymentModal.tsx): Pay Now moves
 * it from idle to processing, a first timer to success, and a second timer
 * reports success, closes the dialog and returns it to idle.
 */
module PaymentModal {
  datatype PayStatus = Idle | Processing | Success

  /** What the dialog shows. */
  datatype View = Nothing | PayForm | Spinner | Confirmation

  /** A closed dialog renders nothing; an open one shows the screen of its status. */
  function ModalView(isOpen: bool, status: PayStatus): (v: View)
    ensures v == Nothing <==> !isOpen
    ensures v == PayForm <==> isOpen && status == Idle
    ensures v == Spinner <==> isOpen && status == Processing
    ensures v == Confirmation <==> isOpen && status == Success
  {
    if !isOpen then Nothing
    else match status
      case Idle => PayForm
      case Processing => Spinner
      case Success => Confirmation
  }

  /** The status after the next step of a payment: pay, then the first timer, then the second. */
  function NextStatus(s: PayStatus): (r: PayStatus)
    ensures r != s
  {
    match s
    case Idle => Processing
    case Processing => Success
    case Success => Idle
  }

  /** A completed payment passes through every status once and ends where it began. */
  lemma PaymentCycle(s: PayStatus)
    ensures NextStatus(NextStatus(NextStatus(s))) == s
    ensures {s, NextStatus(s), NextStatus(NextStatus(s))} == {Idle, Processing, Success}
  {
  }

  class Modal {
    var status: PayStatus

    constructor ()
      ensures status == Idle
    {
      status := Idle;
    }

    /** handlePay; the Pay Now button exists only on the idle screen. */
    method HandlePay()
      requires status == Idle
      modifies this
      ensures status == Processing && status == NextStatus(old(status))
    {
      status := Processing;
    }

    /** The first timer of handlePay. */
    method ProcessingDone()
      requires status == Processing
      modifies this
      ensures status == Success && status == NextStatus(old(status))
    {
      status := Success;
    }

    /** The last step of the second timer, after the callbacks. */
    method Reset()
      requires status == Success
      modifies this
      ensures status == Idle && status == NextStatus(old(status))
    {
      status := Idle;
    }
  }
}
