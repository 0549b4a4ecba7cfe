/** The records the application keeps, shaped after the document schemas the
    server persists, and the server's store as one value. Money is in integer
    cents; timestamps are plain integers supplied by the caller. */
module Store {
  import opened Common
  import opened Seqs

  /** A catalogue entry. `id` is the application's own integer key, distinct
      from the database's internal identifier. */
  datatype Medicine = Medicine(id: int, name: string, price: int, category: string, stock: int, image: string)

  /** A stored account; `role` is the empty string when the document has none. */
  datatype User = User(
    id: string, fullName: string, email: string, username: string,
    passwordHash: string, role: string, createdAt: int)

  datatype Consult = Consult(
    id: string, name: string, email: string, phone: string,
    specialty: string, symptoms: string, date: int)

  datatype Appointment = Appointment(
    id: string, name: string, email: string, phone: string,
    doctor: string, date: string, time: string, createdAt: int)

  /** One ordered medicine as a payment records it. */
  datatype LineItem = LineItem(id: int, name: string, price: int, quantity: int)

  /** The three values the payment schema admits for `status`. */
  datatype PaymentStatus = Completed | Pending | Failed

  datatype Payment = Payment(
    transactionId: string,
    customerName: string, customerEmail: string, customerPhone: string,
    deliveryAddress: string, paymentMethod: string,
    items: seq<LineItem>, totalAmount: int,
    cardNumber: Option<string>, expiryDate: Option<string>, cvv: Option<string>,
    status: PaymentStatus, date: int)

  /** The payment method that is paid on delivery. */
  const CashOnDelivery: string := "cash_on_delivery"

  /** The status a new payment is recorded with, on the server and in the
      browser's offline copy alike: pending for cash on delivery, completed for
      every other method; `Failed` is never assigned. */
  function StatusFor(paymentMethod: string): (s: PaymentStatus)
    ensures s == Pending <==> paymentMethod == CashOnDelivery
    ensures s != Failed
  {
    if paymentMethod == CashOnDelivery then Pending else Completed
  }

  /** The five collections of the server's database. */
  datatype Db = Db(
    users: seq<User>,
    consults: seq<Consult>,
    appointments: seq<Appointment>,
    medicines: seq<Medicine>,
    payments: seq<Payment>)

  /** No two catalogue entries share an id. */
  ghost predicate UniqueIds(meds: seq<Medicine>) {
    forall i, j :: 0 <= i < j < |meds| ==> meds[i].id != meds[j].id
  }

  ghost predicate HasMedicine(meds: seq<Medicine>, id: int) {
    exists i :: 0 <= i < |meds| && meds[i].id == id
  }

  /** Where `findOne({ id })` and `medicines.find(m => m.id === id)` land: the
      first entry with that id. */
  function IndexOfMedicine(meds: seq<Medicine>, id: int): (r: Option<nat>)
    ensures r.None? <==> !HasMedicine(meds, id)
    ensures r.Some? ==> r.value < |meds| && meds[r.value].id == id
    ensures r.Some? ==> forall i :: 0 <= i < r.value ==> meds[i].id != id
  {
    FirstWhere(meds, (m: Medicine) => m.id == id)
  }

  /** The entry `IndexOfMedicine` finds, as a value. */
  function MedicineById(meds: seq<Medicine>, id: int): (r: Option<Medicine>)
    ensures r.None? <==> !HasMedicine(meds, id)
    ensures r.Some? ==> r.value in meds && r.value.id == id
    ensures r.Some? ==> r.value == meds[IndexOfMedicine(meds, id).value]
  {
    match IndexOfMedicine(meds, id)
    case None => None
    case Some(k) => Some(meds[k])
  }

  /** Every catalogue entry has at least `lo` units in stock. */
  ghost predicate StocksAtLeast(meds: seq<Medicine>, lo: int) {
    forall m | m in meds :: m.stock >= lo
  }
}
