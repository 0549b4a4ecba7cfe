/** The browser's offline fallback: when posting a consultation, an
    appointment or a payment fails for any reason, the payload plus a
    client-made timestamp (and, for payments, a status and a transaction id) is
    appended to a list in local storage. Nothing is ever sent back later. */
module Offline {
  import opened Common
  import opened Text
  import opened Store
  import Payments

  datatype ConsultDraft = ConsultDraft(name: string, email: string, phone: string, specialty: string, symptoms: string)
  datatype OfflineConsult = OfflineConsult(draft: ConsultDraft, date: string)

  datatype AppointmentDraft = AppointmentDraft(name: string, email: string, phone: string, doctor: string, date: string, time: string)
  datatype OfflineAppointment = OfflineAppointment(draft: AppointmentDraft, createdAt: string)

  /** The checkout payload exactly as the page builds it, card fields unmasked. */
  datatype PaymentDraft = PaymentDraft(
    customerName: string, customerEmail: string, customerPhone: string,
    deliveryAddress: string, paymentMethod: string,
    cardNumber: string, expiryDate: string, cvv: string,
    items: seq<LineItem>, totalAmount: int)
  datatype OfflinePayment = OfflinePayment(draft: PaymentDraft, date: string, status: PaymentStatus, transactionId: string)

  /** `lsGet(key)`: the stored list; `None` stands for a key that is absent
      or whose text does not parse, and both read as the empty list. */
  function Load<T>(stored: Option<seq<T>>): (r: seq<T>)
    ensures stored.Some? ==> r == stored.value
    ensures stored.None? ==> r == []
  {
    match stored
    case Some(xs) => xs
    case None => []
  }

  /** `push` then `lsSet`: the list written back. */
  function Enqueue<T>(stored: Option<seq<T>>, record: T): (r: seq<T>)
    ensures |r| == |Load(stored)| + 1
    ensures r[..|Load(stored)|] == Load(stored)
    ensures r[|Load(stored)|] == record
  {
    Load(stored) + [record]
  }

  function SaveConsult(stored: Option<seq<OfflineConsult>>, draft: ConsultDraft, now: string): (r: seq<OfflineConsult>)
    ensures |r| == |Load(stored)| + 1 && r[..|Load(stored)|] == Load(stored)
    ensures r[|r| - 1].draft == draft && r[|r| - 1].date == now
  {
    Enqueue(stored, OfflineConsult(draft, now))
  }

  function SaveAppointment(stored: Option<seq<OfflineAppointment>>, draft: AppointmentDraft, now: string): (r: seq<OfflineAppointment>)
    ensures |r| == |Load(stored)| + 1 && r[..|Load(stored)|] == Load(stored)
    ensures r[|r| - 1].draft == draft && r[|r| - 1].createdAt == now
  {
    Enqueue(stored, OfflineAppointment(draft, now))
  }

  /** The offline payment record: status from the payment method, transaction
      id "TXN" followed by the millisecond clock. */
  function SavePayment(stored: Option<seq<OfflinePayment>>, draft: PaymentDraft, now: string, millis: nat): (r: seq<OfflinePayment>)
    ensures |r| == |Load(stored)| + 1 && r[..|Load(stored)|] == Load(stored)
    ensures r[|r| - 1].draft == draft && r[|r| - 1].date == now
    ensures r[|r| - 1].status == Pending <==> draft.paymentMethod == CashOnDelivery
    ensures r[|r| - 1].status != Failed
    ensures StartsWith(r[|r| - 1].transactionId, "TXN")
  {
    Enqueue(stored, OfflinePayment(draft, now, StatusFor(draft.paymentMethod), "TXN" + NatToString(millis)))
  }

  /** An unreadable stored list is replaced, not extended: the earlier entries are lost. */
  lemma UnreadableListIsReplaced<T>(record: T)
    ensures Enqueue(None, record) == [record]
  {
  }

  /** Unlike the server, the offline record keeps the card fields as typed: a
      CVV the server would store as "***" and a card number whose first digit
      the server would mask both stay in clear text in local storage. */
  lemma OfflinePaymentKeepsCardData(stored: Option<seq<OfflinePayment>>, draft: PaymentDraft, now: string, millis: nat)
    requires draft.cvv != "" && draft.cvv != "***"
    requires |draft.cardNumber| > 0 && Payments.MaskedAt(draft.cardNumber, 0)
    ensures var r := SavePayment(stored, draft, now, millis);
            && r[|r| - 1].draft.cvv == draft.cvv
            && Payments.RedactCvv(Some(draft.cvv)) != Some(r[|r| - 1].draft.cvv)
            && r[|r| - 1].draft.cardNumber == draft.cardNumber
            && Payments.MaskCard(draft.cardNumber) != r[|r| - 1].draft.cardNumber
  {
    var masked := Payments.MaskCard(draft.cardNumber);
    assert masked[0] == '*' && draft.cardNumber[0] != '*';
  }
}
