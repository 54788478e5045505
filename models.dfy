/**
 * The records of the affiliate and booking application.  Money is in CZK
 * and whole; free hours and reward hours are carried as opaque reals
 * (nothing in the modelled code computes with them); timestamps are
 * milliseconds.
 */
module Models {
  import opened Wrappers

  datatype Role = CustomerRole | Admin

  /** A `string | null` field that may also be missing (`undefined`). */
  datatype Link = Absent | Null | To(id: string)

  datatype Customer = Customer(
    id: string,
    email: string,
    firstName: string,
    lastName: string,
    description: Option<string>,
    age: Option<int>,
    occupation: Option<string>,
    createdAt: int,
    updatedAt: int,
    isVerified: bool,
    qrCodeUrl: Option<string>,
    freeHours: real,
    referrerId: Link,
    role: Role)

  /**
   * `Partial<Customer>`: `None` is a key the object does not have; for an
   * optional field, `Some(None)` is a key present with value `undefined`.
   */
  datatype Patch = Patch(
    id: Option<string>,
    email: Option<string>,
    firstName: Option<string>,
    lastName: Option<string>,
    description: Option<Option<string>>,
    age: Option<Option<int>>,
    occupation: Option<Option<string>>,
    createdAt: Option<int>,
    updatedAt: Option<int>,
    isVerified: Option<bool>,
    qrCodeUrl: Option<Option<string>>,
    freeHours: Option<real>,
    referrerId: Option<Link>,
    role: Option<Role>)

  /** The object literal `{}`. */
  const EmptyPatch := Patch(None, None, None, None, None, None, None, None, None, None, None, None, None, None)

  datatype Service = Service(id: string, name: string, price: int, duration: int)

  datatype WorkingHour = WorkingHour(day: string, from: string, to: string)

  datatype Contact = Contact(phone: string, email: string, address: string)

  datatype BusinessInfo = BusinessInfo(
    id: string,
    name: string,
    description: string,
    services: seq<Service>,
    contact: Contact,
    workingHours: seq<WorkingHour>,
    logo: Option<string>)

  datatype BookingStatus = Confirmed | Pending | Cancelled

  datatype PaymentStatus = Paid | Unpaid | Free

  datatype Booking = Booking(
    id: string,
    customerId: string,
    serviceId: string,
    date: int,
    duration: int,
    status: BookingStatus,
    paymentStatus: PaymentStatus,
    createdAt: int,
    updatedAt: int,
    price: int,
    referrerId: Link)

  datatype QRCode = QRCode(
    id: string,
    customerId: string,
    url: string,
    imageUrl: string,
    createdAt: int,
    scansCount: int,
    lastScanned: Option<int>)

  datatype ReferralTransaction = ReferralTransaction(bookingId: string, date: int, amount: int, freeHoursEarned: real)

  datatype Referral = Referral(
    id: string,
    referrerId: string,
    referredId: string,
    createdAt: int,
    totalPaid: int,
    totalFreeHours: real,
    transactions: seq<ReferralTransaction>)

  datatype TransactionStatus = TxCompleted | TxPending | TxFailed

  datatype PaymentMethod = Card | Cash | FreeOfCharge

  datatype Transaction = Transaction(
    id: string,
    customerId: string,
    bookingId: string,
    amount: int,
    currency: string,
    status: TransactionStatus,
    paymentMethod: PaymentMethod,
    stripePaymentId: Option<string>,
    createdAt: int,
    referrerId: Link,
    rewardAmount: int,
    rewardHours: real)

  /** `data` is an arbitrary JSON payload, kept as its text. */
  datatype Notification = Notification(
    id: string,
    recipientId: string,
    kind: string,
    title: string,
    message: string,
    data: string,
    read: bool,
    createdAt: int,
    sentViaEmail: bool,
    sentViaPush: bool)

  datatype AdminAction = AdminAction(
    id: string,
    adminId: string,
    customerId: string,
    kind: string,
    value: real,
    reason: string,
    createdAt: int,
    relatedTransactionId: Link)
}
