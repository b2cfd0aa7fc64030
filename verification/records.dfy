/**
 * The rows of the bookkeeping tables (parties, products, invoices and their
 * items, payments, ledger transactions, stock movements, the personal ledger,
 * categories, OTPs and users), the enumerations of their columns, and the
 * errors a controller action ends with.
 */
module Records {
  import opened Wrappers

  /** Row ids and the owning user's id. */
  type Id = nat
  /** Calendar days as day numbers (see Calendar). */
  type Day = int
  /** Amounts of money: decimal(15,2) columns, kept exact. */
  type Money = real

  datatype TxnType = Debit | Credit
  datatype PersonalTxnType = Given | Received
  datatype PaymentStatus = Unpaid | PartiallyPaid | Paid
  datatype PartyType = Customer | Supplier | Both
  datatype ActiveStatus = Active | Inactive
  datatype PaymentMethod = Cash | Upi | BankTransfer | Cheque | OtherMethod
  datatype StockDirection = In | Out

  /** The `reference_type`/`reference_id` pair of a ledger or stock row. */
  datatype Reference = NoReference | InvoiceRef(invoiceId: Id) | PaymentRef(paymentId: Id) | Manual

  datatype Party = Party(
    owner: Id, name: string, mobile: Option<string>, address: Option<string>,
    kind: PartyType, openingBalance: Money, status: ActiveStatus)

  datatype Product = Product(owner: Id, name: string, stock: int, lowStockThreshold: int)

  datatype Invoice = Invoice(
    owner: Id, partyId: Id, number: string, date: Day,
    subtotal: Money, taxAmount: Money, totalAmount: Money,
    status: PaymentStatus, paidAmount: Money, notes: Option<string>)

  datatype InvoiceItem = InvoiceItem(
    invoiceId: Id, productId: Id, quantity: int, unitPrice: Money,
    taxRate: real, taxAmount: Money, total: Money)

  datatype Payment = Payment(
    owner: Id, partyId: Id, invoiceId: Option<Id>, amount: Money, date: Day,
    payMethod: PaymentMethod, referenceNumber: Option<string>, notes: Option<string>)

  /** A party ledger ("khata") entry. */
  datatype Transaction = Transaction(
    owner: Id, partyId: Id, kind: TxnType, amount: Money, date: Day,
    note: Option<string>, reference: Reference)

  datatype StockMovement = StockMovement(
    owner: Id, productId: Id, direction: StockDirection, quantity: int,
    unitPrice: Option<Money>, reference: Reference)

  datatype PersonalContact = PersonalContact(
    owner: Id, name: string, openingBalance: Money, status: ActiveStatus)

  datatype PersonalTransaction = PersonalTransaction(
    owner: Id, contactId: Id, kind: PersonalTxnType, amount: Money, date: Day,
    note: Option<string>, payMethod: PaymentMethod, referenceNumber: Option<string>)

  datatype Expense = Expense(owner: Id, amount: Money, date: Day)

  datatype Purchase = Purchase(owner: Id, amount: Money, date: Day)

  datatype Category = Category(owner: Id, name: string)

  /** An OTP row; `expiresAt` is in seconds. */
  datatype Otp = Otp(mobile: string, code: string, verified: bool, expiresAt: int)

  datatype User = User(mobile: string, registrationComplete: bool)

  /** 422 (validation), 404 (not found or not the caller's), 401 (OTP refused), 500 (rolled back). */
  datatype Error = ValidationFailed | NotFound | InvalidOtp | ExpiredOtp | Failed

  /** `amount` rule `numeric|min:0.01`. */
  predicate ValidAmount(a: Money) { a >= 0.01 }

  function ParseTxnType(s: string): (r: Option<TxnType>)
    ensures r.Some? <==> s == "debit" || s == "credit"
  {
    if s == "debit" then Some(Debit) else if s == "credit" then Some(Credit) else None
  }

  function TxnTypeName(k: TxnType): (s: string)
    ensures ParseTxnType(s) == Some(k)
  {
    match k
    case Debit => "debit"
    case Credit => "credit"
  }

  function ParsePersonalTxnType(s: string): (r: Option<PersonalTxnType>)
    ensures r.Some? <==> s == "given" || s == "received"
  {
    if s == "given" then Some(Given) else if s == "received" then Some(Received) else None
  }

  function PersonalTxnTypeName(k: PersonalTxnType): (s: string)
    ensures ParsePersonalTxnType(s) == Some(k)
  {
    match k
    case Given => "given"
    case Received => "received"
  }

  function ParsePaymentStatus(s: string): (r: Option<PaymentStatus>)
    ensures r.Some? <==> s == "paid" || s == "partially_paid" || s == "unpaid"
  {
    if s == "paid" then Some(Paid)
    else if s == "partially_paid" then Some(PartiallyPaid)
    else if s == "unpaid" then Some(Unpaid)
    else None
  }

  function ParsePartyType(s: string): (r: Option<PartyType>)
    ensures r.Some? <==> s == "customer" || s == "supplier" || s == "both"
  {
    if s == "customer" then Some(Customer)
    else if s == "supplier" then Some(Supplier)
    else if s == "both" then Some(Both)
    else None
  }

  function ParseActiveStatus(s: string): (r: Option<ActiveStatus>)
    ensures r.Some? <==> s == "active" || s == "inactive"
  {
    if s == "active" then Some(Active) else if s == "inactive" then Some(Inactive) else None
  }

  /** `payment_method` of a payment: `in:cash,upi,bank_transfer,cheque,other`. */
  function ParsePaymentMethod(s: string): (r: Option<PaymentMethod>)
    ensures r.Some? <==> s in ["cash", "upi", "bank_transfer", "cheque", "other"]
  {
    if s == "cash" then Some(Cash)
    else if s == "upi" then Some(Upi)
    else if s == "bank_transfer" then Some(BankTransfer)
    else if s == "cheque" then Some(Cheque)
    else if s == "other" then Some(OtherMethod)
    else None
  }

  /** `payment_method` of a personal transaction: the same list without `cheque`. */
  function ParsePersonalMethod(s: string): (r: Option<PaymentMethod>)
    ensures r.Some? <==> s in ["cash", "upi", "bank_transfer", "other"]
    ensures r != Some(Cheque)
  {
    if s == "cheque" then None else ParsePaymentMethod(s)
  }
}
