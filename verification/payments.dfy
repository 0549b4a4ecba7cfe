/** POST /api/payments: the payment record (masked card number, redacted
    CVV, status from the payment method) and the stock decrement that follows
    it. The transaction id (clock plus random suffix) and the timestamp are
    parameters. */
module Payments {
  import opened Common
  import opened Text
  import opened Store
  import opened Auth

  datatype PaymentBody = PaymentBody(
    customerName: Option<string>, customerEmail: Option<string>, customerPhone: Option<string>,
    deliveryAddress: Option<string>, paymentMethod: Option<string>,
    items: Option<seq<LineItem>>, totalAmount: Option<int>,
    cardNumber: Option<string>, expiryDate: Option<string>, cvv: Option<string>)

  datatype Reply = Reply(db: Db, status: Status, item: Option<Payment>)

  /** The lookahead of `\d(?=\d{4})`: the four characters after index `i` exist and are digits. */
  predicate FourDigitsFollow(s: string, i: int)
    requires 0 <= i
  {
    i + 4 < |s| && IsDigit(s[i + 1]) && IsDigit(s[i + 2]) && IsDigit(s[i + 3]) && IsDigit(s[i + 4])
  }

  /** Whether the global replace rewrites index `i`. The lookahead reads the
      input, not the partly rewritten output, so each index is decided alone. */
  predicate MaskedAt(s: string, i: int)
    requires 0 <= i < |s|
  {
    IsDigit(s[i]) && FourDigitsFollow(s, i)
  }

  /** `cardNumber.replace(/\d(?=\d{4})/g, '*')`. */
  function MaskCard(s: string): (r: string)
    ensures |r| == |s|
    ensures forall i :: 0 <= i < |s| ==> (r[i] == '*' <==> MaskedAt(s, i) || s[i] == '*')
    ensures forall i :: 0 <= i < |s| && !MaskedAt(s, i) ==> r[i] == s[i]
    ensures forall i :: 0 <= i < |s| && !IsDigit(s[i]) ==> r[i] == s[i]
    ensures |s| >= 4 ==> r[|s| - 4..] == s[|s| - 4..]
  {
    seq(|s|, i requires 0 <= i < |s| => if MaskedAt(s, i) then '*' else s[i])
  }

  /** Masking an already masked number changes nothing more. */
  lemma MaskIdempotent(s: string)
    ensures MaskCard(MaskCard(s)) == MaskCard(s)
  {
  }

  /** A number of digits only keeps exactly its last four digits. */
  lemma DigitsMaskedButLastFour(s: string)
    requires |s| >= 4
    requires forall i :: 0 <= i < |s| ==> IsDigit(s[i])
    ensures forall i :: 0 <= i < |s| - 4 ==> MaskCard(s)[i] == '*'
    ensures MaskCard(s)[|s| - 4..] == s[|s| - 4..]
  {
  }

  /** The usual test number comes out as twelve stars and "1111". */
  lemma TestCardMasked()
    ensures MaskCard("4111111111111111") == "************1111"
  {
  }

  /** A number typed in groups of four is stored in full: no digit is followed
      by four digits, so nothing is masked. */
  lemma GroupedCardNotMasked()
    ensures MaskCard("4111 1111 1111 1111") == "4111 1111 1111 1111"
  {
    var s := "4111 1111 1111 1111";
    forall i | 0 <= i < |s|
      ensures !MaskedAt(s, i)
    {
      assert s[4] == ' ' && s[9] == ' ' && s[14] == ' ';
    }
  }

  /** `cvv ? '***' : null`. */
  function RedactCvv(cvv: Option<string>): (r: Option<string>)
    ensures r.Some? <==> Truthy(cvv)
    ensures r.Some? ==> r.value == "***"
  {
    if Truthy(cvv) then Some("***") else None
  }

  /** `x || null` for a string field. */
  function OrNull(f: Option<string>): (r: Option<string>)
    ensures r.Some? <==> Truthy(f)
    ensures r.Some? ==> r == f
  {
    if Truthy(f) then f else None
  }

  /** Only the stock of entries may differ between the two catalogues. */
  ghost predicate SameExceptStock(before: seq<Medicine>, after: seq<Medicine>) {
    && |after| == |before|
    && forall i :: 0 <= i < |before| ==> after[i] == before[i].(stock := after[i].stock)
  }

  /** One line of the order: the first entry with the line's id loses the
      line's quantity when its stock is at least that quantity; otherwise
      nothing changes. */
  function ApplyLine(meds: seq<Medicine>, line: LineItem): (r: seq<Medicine>)
    ensures SameExceptStock(meds, r)
    ensures forall i :: 0 <= i < |meds| && meds[i].id != line.id ==> r[i] == meds[i]
    ensures !HasMedicine(meds, line.id) ==> r == meds
    ensures HasMedicine(meds, line.id) ==>
              var k := IndexOfMedicine(meds, line.id).value;
              && (meds[k].stock < line.quantity ==> r == meds)
              && (meds[k].stock >= line.quantity ==>
                    && r[k].stock == meds[k].stock - line.quantity
                    && forall i :: 0 <= i < |meds| && i != k ==> r[i] == meds[i])
    ensures forall i :: 0 <= i < |meds| && r[i] != meds[i] ==> r[i].stock >= 0
  {
    match IndexOfMedicine(meds, line.id)
    case None => meds
    case Some(k) =>
      if meds[k].stock >= line.quantity then meds[k := meds[k].(stock := meds[k].stock - line.quantity)]
      else meds
  }

  /** The stock loop: the lines are applied in order, each against the stock
      the previous ones left. */
  function DecrementStock(meds: seq<Medicine>, lines: seq<LineItem>): (r: seq<Medicine>)
    ensures SameExceptStock(meds, r)
    ensures forall i :: 0 <= i < |meds| && (forall j :: 0 <= j < |lines| ==> lines[j].id != meds[i].id) ==> r[i] == meds[i]
    decreases |lines|
  {
    if |lines| == 0 then meds
    else DecrementStock(ApplyLine(meds, lines[0]), lines[1..])
  }

  /** The stock test keeps every stock that was non-negative non-negative. */
  lemma {:induction false} DecrementKeepsStockNonNegative(meds: seq<Medicine>, lines: seq<LineItem>)
    requires StocksAtLeast(meds, 0)
    ensures StocksAtLeast(DecrementStock(meds, lines), 0)
    decreases |lines|
  {
    if |lines| > 0 {
      var next := ApplyLine(meds, lines[0]);
      forall m | m in next
        ensures m.stock >= 0
      {
        var i :| 0 <= i < |next| && next[i] == m;
        assert next[i] == meds[i] || next[i].stock >= 0;
      }
      DecrementKeepsStockNonNegative(next, lines[1..]);
    }
  }

  /** With no negative quantity in the order, no stock goes up. */
  lemma {:induction false} DecrementNeverRaises(meds: seq<Medicine>, lines: seq<LineItem>)
    requires forall j :: 0 <= j < |lines| ==> lines[j].quantity >= 0
    ensures forall i :: 0 <= i < |meds| ==> DecrementStock(meds, lines)[i].stock <= meds[i].stock
    decreases |lines|
  {
    if |lines| > 0 {
      var next := ApplyLine(meds, lines[0]);
      assert forall i :: 0 <= i < |meds| ==> next[i].stock <= meds[i].stock;
      DecrementNeverRaises(next, lines[1..]);
    }
  }

  /** Stock changes leave the set of ids, and so their uniqueness, alone. */
  lemma DecrementKeepsIds(meds: seq<Medicine>, lines: seq<LineItem>)
    requires UniqueIds(meds)
    ensures UniqueIds(DecrementStock(meds, lines))
  {
  }

  /** A one-line order for `quantity` units of entry `id`: the entry's stock
      drops by exactly that much when it suffices and is left as it is
      otherwise; the payment is recorded either way. */
  lemma SingleLineOrder(meds: seq<Medicine>, k: nat, line: LineItem)
    requires UniqueIds(meds)
    requires k < |meds| && meds[k].id == line.id
    ensures var r := DecrementStock(meds, [line]);
      && (meds[k].stock >= line.quantity ==> r[k].stock == meds[k].stock - line.quantity)
      && (meds[k].stock < line.quantity ==> r == meds)
  {
  }

  /** Quantities are not checked: a negative quantity passes the stock test
      and raises the stock. */
  lemma NegativeQuantityRaisesStock(meds: seq<Medicine>, k: nat, line: LineItem)
    requires UniqueIds(meds)
    requires k < |meds| && meds[k].id == line.id && line.quantity < 0 && meds[k].stock >= 0
    ensures DecrementStock(meds, [line])[k].stock > meds[k].stock
  {
  }

  predicate PaymentComplete(b: PaymentBody) {
    && Truthy(b.customerName) && Truthy(b.customerEmail) && Truthy(b.customerPhone)
    && Truthy(b.deliveryAddress) && Truthy(b.paymentMethod)
    && b.items.Some? && b.totalAmount.Some?
  }

  /** POST /api/payments: 400 unless the customer fields and the method are
      non-empty and the items and total are given; otherwise the payment is
      stored with the card number masked, the CVV redacted and the status from
      the method, the stock loop runs, and the answer is 201 whatever the loop
      skipped. */
  function CreatePayment(db: Db, body: PaymentBody, transactionId: string, now: int): (r: Reply)
    ensures r.status == Created <==> PaymentComplete(body)
    ensures r.status != Created ==> r.status == BadRequest && r.db == db && r.item.None?
    ensures r.status == Created ==> r.item.Some?
    ensures r.status == Created && r.item.Some? ==>
              var p := r.item.value;
              && r.db == db.(payments := db.payments + [p], medicines := r.db.medicines)
              && r.db.medicines == DecrementStock(db.medicines, body.items.value)
              && p.transactionId == transactionId && p.date == now
              && p.items == body.items.value
              && (p.status == Pending <==> body.paymentMethod.value == CashOnDelivery)
              && p.status != Failed
              && p.cvv == RedactCvv(body.cvv)
              && p.expiryDate == OrNull(body.expiryDate)
              && (p.cardNumber.Some? <==> Truthy(body.cardNumber))
              && (p.cardNumber.Some? ==> p.cardNumber.value == MaskCard(body.cardNumber.value))
    ensures r.status == Created && r.item.Some? ==>
              var p := r.item.value;
              && Some(p.customerName) == body.customerName && Some(p.customerEmail) == body.customerEmail
              && Some(p.customerPhone) == body.customerPhone && Some(p.deliveryAddress) == body.deliveryAddress
              && Some(p.paymentMethod) == body.paymentMethod && Some(p.totalAmount) == body.totalAmount
  {
    if !PaymentComplete(body) then Reply(db, BadRequest, None)
    else
      var card := if Truthy(body.cardNumber) then Some(MaskCard(body.cardNumber.value)) else None;
      var p := Payment(
        transactionId,
        body.customerName.value, body.customerEmail.value, body.customerPhone.value,
        body.deliveryAddress.value, body.paymentMethod.value,
        body.items.value, body.totalAmount.value,
        card, OrNull(body.expiryDate), RedactCvv(body.cvv),
        StatusFor(body.paymentMethod.value), now);
      Reply(db.(payments := db.payments + [p], medicines := DecrementStock(db.medicines, body.items.value)), Created, Some(p))
  }

  /** No stored payment carries a CVV other than the redaction marker, and no
      card number whose last four characters differ from the one submitted. */
  lemma StoredCardDataRedacted(db: Db, body: PaymentBody, transactionId: string, now: int)
    requires CreatePayment(db, body, transactionId, now).status == Created
    ensures var p := CreatePayment(db, body, transactionId, now).item.value;
      && (p.cvv.Some? ==> p.cvv.value != body.cvv.value || body.cvv.value == "***")
      && (p.cardNumber.Some? && |body.cardNumber.value| >= 4 ==>
            p.cardNumber.value[|p.cardNumber.value| - 4..] == body.cardNumber.value[|body.cardNumber.value| - 4..])
  {
  }

  /** GET /api/payments: the stored payments behind the admin gate. */
  function ListPayments(db: Db, header: Option<string>, verify: string -> Option<Principal>): (r: Result<seq<Payment>>)
    ensures r.Success? <==> AdminGate(header, verify).Success?
    ensures r.Failure? ==> r.status == AdminGate(header, verify).status
    ensures r.Success? ==> multiset(r.value) == multiset(db.payments)
  {
    Guarded(header, verify, db.payments)
  }
}
