/**
 * The browser's local key-value store as the application uses it: nine
 * fixed string keys, each holding the JSON text of a list of records or of
 * a single record.  JSON encoding is taken to be faithful, so a stored value
 * is either the encoding `Json(doc)` of one of the documents the
 * application writes, or some text that does not parse.
 */
module Storage {
  import opened Wrappers
  import opened Models

  datatype Key =
    | CustomersKey | BusinessInfoKey | BookingsKey | QrCodesKey | ReferralsKey
    | TransactionsKey | NotificationsKey | AdminActionsKey | CurrentUserKey

  /** The string under which each collection or slot is stored. */
  function KeyName(k: Key): string {
    match k
    case CustomersKey => "affiliate-customers"
    case BusinessInfoKey => "affiliate-business-info"
    case BookingsKey => "affiliate-bookings"
    case QrCodesKey => "affiliate-qr-codes"
    case ReferralsKey => "affiliate-referrals"
    case TransactionsKey => "affiliate-transactions"
    case NotificationsKey => "affiliate-notifications"
    case AdminActionsKey => "affiliate-admin-actions"
    case CurrentUserKey => "affiliate-current-user"
  }

  /** The documents the application serialises. */
  datatype Doc =
    | CustomerList(customers: seq<Customer>)
    | BookingList(bookings: seq<Booking>)
    | QrCodeList(codes: seq<QRCode>)
    | ReferralList(referrals: seq<Referral>)
    | TransactionList(transactions: seq<Transaction>)
    | NotificationList(notifications: seq<Notification>)
    | AdminActionList(actions: seq<AdminAction>)
    | BusinessDoc(info: BusinessInfo)
    | CustomerDoc(customer: Customer)
    | NullDoc

  /** A stored string: the JSON encoding of a document, or text that does not parse (including ""). */
  datatype Stored = Json(doc: Doc) | Unparseable(text: string)

  /** The contents of the store, by key string. */
  type Items = map<string, Stored>

  /** Keys holding a list of records (the rest hold one record or null). */
  predicate IsCollection(k: Key) {
    k != BusinessInfoKey && k != CurrentUserKey
  }

  /** `doc` has the shape of the documents written under `k`. */
  predicate Fits(k: Key, doc: Doc) {
    match k
    case CustomersKey => doc.CustomerList?
    case BusinessInfoKey => doc.BusinessDoc? || doc.NullDoc?
    case BookingsKey => doc.BookingList?
    case QrCodesKey => doc.QrCodeList?
    case ReferralsKey => doc.ReferralList?
    case TransactionsKey => doc.TransactionList?
    case NotificationsKey => doc.NotificationList?
    case AdminActionsKey => doc.AdminActionList?
    case CurrentUserKey => doc.CustomerDoc? || doc.NullDoc?
  }

  /** The empty list of the kind stored under a collection key. */
  function EmptyList(k: Key): (d: Doc)
    requires IsCollection(k)
    ensures Fits(k, d)
  {
    match k
    case CustomersKey => CustomerList([])
    case BookingsKey => BookingList([])
    case QrCodesKey => QrCodeList([])
    case ReferralsKey => ReferralList([])
    case TransactionsKey => TransactionList([])
    case NotificationsKey => NotificationList([])
    case AdminActionsKey => AdminActionList([])
  }

  /** Every application key holds unparseable text or a document of its own shape. */
  ghost predicate WellTyped(items: Items) {
    forall k: Key :: KeyName(k) in items && items[KeyName(k)].Json? ==> Fits(k, items[KeyName(k)].doc)
  }

  /** Characters 10 and 12 of each key name, just after the common prefix "affiliate-". */
  function Tag(k: Key): (char, char) {
    match k
    case CustomersKey => ('c', 's')
    case BusinessInfoKey => ('b', 's')
    case BookingsKey => ('b', 'o')
    case QrCodesKey => ('q', '-')
    case ReferralsKey => ('r', 'f')
    case TransactionsKey => ('t', 'a')
    case NotificationsKey => ('n', 't')
    case AdminActionsKey => ('a', 'm')
    case CurrentUserKey => ('c', 'r')
  }

  lemma KeyNameTag(k: Key)
    ensures |KeyName(k)| > 12 && (KeyName(k)[10], KeyName(k)[12]) == Tag(k)
  {
  }

  /** The nine key strings are pairwise distinct. */
  lemma KeyNamesDistinct(k1: Key, k2: Key)
    requires k1 != k2
    ensures KeyName(k1) != KeyName(k2)
  {
    KeyNameTag(k1);
    KeyNameTag(k2);
    assert Tag(k1) != Tag(k2);
  }

  /** `setItem(k, JSON.stringify(doc))`. */
  function Put(items: Items, k: Key, doc: Doc): Items {
    items[KeyName(k) := Json(doc)]
  }

  /** `removeItem(k)`. */
  function Remove(items: Items, k: Key): Items {
    items - {KeyName(k)}
  }

  /**
   * `loadFromStorage(k)`: the parsed list, or the empty list when the key
   * is missing or its text does not parse.
   */
  function LoadFromStorage(items: Items, k: Key): (d: Doc)
    requires IsCollection(k)
    ensures WellTyped(items) ==> Fits(k, d)
  {
    if KeyName(k) in items && items[KeyName(k)].Json? then items[KeyName(k)].doc else EmptyList(k)
  }

  /** `loadSingleItem(k)`: the parsed record, or null when missing or unparseable. */
  function LoadSingleItem(items: Items, k: Key): (d: Doc)
    ensures WellTyped(items) && !IsCollection(k) ==> Fits(k, d)
  {
    if KeyName(k) in items && items[KeyName(k)].Json? then items[KeyName(k)].doc else NullDoc
  }

  /** On a well-typed store, exactly the list stored under its key (or the empty list). */
  function LoadCustomers(items: Items): (r: seq<Customer>)
    ensures WellTyped(items) ==> LoadFromStorage(items, CustomersKey) == CustomerList(r)
  {
    match LoadFromStorage(items, CustomersKey)
    case CustomerList(cs) => cs
    case _ => []
  }

  /** On a well-typed store, exactly the list stored under its key (or the empty list). */
  function LoadBookings(items: Items): (r: seq<Booking>)
    ensures WellTyped(items) ==> LoadFromStorage(items, BookingsKey) == BookingList(r)
  {
    match LoadFromStorage(items, BookingsKey)
    case BookingList(bs) => bs
    case _ => []
  }

  /** On a well-typed store, exactly the list stored under its key (or the empty list). */
  function LoadQRCodes(items: Items): (r: seq<QRCode>)
    ensures WellTyped(items) ==> LoadFromStorage(items, QrCodesKey) == QrCodeList(r)
  {
    match LoadFromStorage(items, QrCodesKey)
    case QrCodeList(qs) => qs
    case _ => []
  }

  /** On a well-typed store, exactly the list stored under its key (or the empty list). */
  function LoadReferrals(items: Items): (r: seq<Referral>)
    ensures WellTyped(items) ==> LoadFromStorage(items, ReferralsKey) == ReferralList(r)
  {
    match LoadFromStorage(items, ReferralsKey)
    case ReferralList(rs) => rs
    case _ => []
  }

  /** On a well-typed store, exactly the list stored under its key (or the empty list). */
  function LoadTransactions(items: Items): (r: seq<Transaction>)
    ensures WellTyped(items) ==> LoadFromStorage(items, TransactionsKey) == TransactionList(r)
  {
    match LoadFromStorage(items, TransactionsKey)
    case TransactionList(ts) => ts
    case _ => []
  }

  /** On a well-typed store, exactly the list stored under its key (or the empty list). */
  function LoadNotifications(items: Items): (r: seq<Notification>)
    ensures WellTyped(items) ==> LoadFromStorage(items, NotificationsKey) == NotificationList(r)
  {
    match LoadFromStorage(items, NotificationsKey)
    case NotificationList(ns) => ns
    case _ => []
  }

  /** On a well-typed store, exactly the list stored under its key (or the empty list). */
  function LoadAdminActions(items: Items): (r: seq<AdminAction>)
    ensures WellTyped(items) ==> LoadFromStorage(items, AdminActionsKey) == AdminActionList(r)
  {
    match LoadFromStorage(items, AdminActionsKey)
    case AdminActionList(actions) => actions
    case _ => []
  }

  /** On a well-typed store, exactly the stored record, or none for null. */
  function LoadBusinessInfo(items: Items): (r: Option<BusinessInfo>)
    ensures WellTyped(items) ==> LoadSingleItem(items, BusinessInfoKey) == if r.Some? then BusinessDoc(r.value) else NullDoc
  {
    match LoadSingleItem(items, BusinessInfoKey)
    case BusinessDoc(info) => Some(info)
    case _ => None
  }

  /** On a well-typed store, exactly the stored user, or none for null. */
  function LoadCurrentUser(items: Items): (r: Option<Customer>)
    ensures WellTyped(items) ==> LoadSingleItem(items, CurrentUserKey) == UserDoc(r)
  {
    match LoadSingleItem(items, CurrentUserKey)
    case CustomerDoc(c) => Some(c)
    case _ => None
  }

  /** The document `saveCurrentUser(user)` writes: the record, or `null`. */
  function UserDoc(user: Option<Customer>): Doc {
    match user
    case Some(c) => CustomerDoc(c)
    case None => NullDoc
  }

  /** A collection key that was never written loads as the empty list. */
  lemma UnwrittenCollectionIsEmpty(items: Items, k: Key)
    requires IsCollection(k) && KeyName(k) !in items
    ensures LoadFromStorage(items, k) == EmptyList(k)
  {
  }

  /** A single-item key that was never written loads as null. */
  lemma UnwrittenItemIsNull(items: Items, k: Key)
    requires KeyName(k) !in items
    ensures LoadSingleItem(items, k) == NullDoc
  {
  }

  /** Text that does not parse loads as the empty list or null; no error escapes. */
  lemma UnparseableLoadsEmpty(items: Items, k: Key)
    requires KeyName(k) in items && items[KeyName(k)].Unparseable?
    ensures IsCollection(k) ==> LoadFromStorage(items, k) == EmptyList(k)
    ensures LoadSingleItem(items, k) == NullDoc
  {
  }

  /** Saving a list and loading it back returns the same list. */
  lemma CollectionRoundTrip(items: Items, k: Key, doc: Doc)
    requires IsCollection(k)
    ensures LoadFromStorage(Put(items, k, doc), k) == doc
  {
  }

  /** Saving a record (or null) and loading it back returns it. */
  lemma ItemRoundTrip(items: Items, k: Key, doc: Doc)
    ensures LoadSingleItem(Put(items, k, doc), k) == doc
  {
  }

  /** The typed loaders return what the typed savers wrote. */
  lemma TypedRoundTrips(items: Items, cs: seq<Customer>, qs: seq<QRCode>, user: Option<Customer>)
    ensures LoadCustomers(Put(items, CustomersKey, CustomerList(cs))) == cs
    ensures LoadQRCodes(Put(items, QrCodesKey, QrCodeList(qs))) == qs
    ensures LoadCurrentUser(Put(items, CurrentUserKey, UserDoc(user))) == user
  {
  }

  /** Writing one key leaves what every other key loads unchanged. */
  lemma PutFrame(items: Items, k: Key, doc: Doc, other: Key)
    requires other != k
    ensures IsCollection(other) ==> LoadFromStorage(Put(items, k, doc), other) == LoadFromStorage(items, other)
    ensures LoadSingleItem(Put(items, k, doc), other) == LoadSingleItem(items, other)
  {
    KeyNamesDistinct(k, other);
    var name := KeyName(other);
    assert name in Put(items, k, doc) <==> name in items;
    assert name in items ==> Put(items, k, doc)[name] == items[name];
    SameEntrySameLoad(Put(items, k, doc), items, other);
  }

  /** Two stores that agree on the entry of `k` load the same from it. */
  lemma SameEntrySameLoad(a: Items, b: Items, k: Key)
    requires KeyName(k) in a <==> KeyName(k) in b
    requires KeyName(k) in a ==> a[KeyName(k)] == b[KeyName(k)]
    ensures IsCollection(k) ==> LoadFromStorage(a, k) == LoadFromStorage(b, k)
    ensures LoadSingleItem(a, k) == LoadSingleItem(b, k)
  {
  }

  /** Removing one key leaves what every other key loads unchanged. */
  lemma RemoveFrame(items: Items, k: Key, other: Key)
    requires other != k
    ensures IsCollection(other) ==> LoadFromStorage(Remove(items, k), other) == LoadFromStorage(items, other)
    ensures LoadSingleItem(Remove(items, k), other) == LoadSingleItem(items, other)
  {
    KeyNamesDistinct(k, other);
    var name := KeyName(other);
    assert name in Remove(items, k) <==> name in items;
    assert name in items ==> Remove(items, k)[name] == items[name];
    SameEntrySameLoad(Remove(items, k), items, other);
  }

  /** After `clearCurrentUser`, `loadCurrentUser` returns null. */
  lemma ClearedUserIsNull(items: Items)
    ensures LoadCurrentUser(Remove(items, CurrentUserKey)) == None
  {
  }

  /** Saving a document of the key's own shape keeps the store well typed. */
  lemma PutWellTyped(items: Items, k: Key, doc: Doc)
    requires WellTyped(items) && Fits(k, doc)
    ensures WellTyped(Put(items, k, doc))
  {
    forall other: Key | KeyName(other) in Put(items, k, doc) && Put(items, k, doc)[KeyName(other)].Json?
      ensures Fits(other, Put(items, k, doc)[KeyName(other)].doc)
    {
      if other != k {
        KeyNamesDistinct(k, other);
      }
    }
  }

  /**
   * `localStorage` as a mutable object.  Each save writes one key and
   * nothing else; write failures (a full quota) are not modelled.
   */
  class LocalStore {
    var items: Items

    constructor(initial: Items)
      ensures items == initial
    {
      items := initial;
    }

    /** `saveToStorage(k, list)`. */
    method SaveToStorage(k: Key, doc: Doc)
      requires IsCollection(k) && Fits(k, doc)
      modifies this
      ensures items == Put(old(items), k, doc)
      ensures WellTyped(old(items)) ==> WellTyped(items)
    {
      if WellTyped(items) {
        PutWellTyped(items, k, doc);
      }
      items := items[KeyName(k) := Json(doc)];
    }

    /** `saveSingleItem(k, record)`. */
    method SaveSingleItem(k: Key, doc: Doc)
      requires !IsCollection(k) && Fits(k, doc)
      modifies this
      ensures items == Put(old(items), k, doc)
      ensures WellTyped(old(items)) ==> WellTyped(items)
    {
      if WellTyped(items) {
        PutWellTyped(items, k, doc);
      }
      items := items[KeyName(k) := Json(doc)];
    }

    method SaveCustomers(customers: seq<Customer>)
      modifies this
      ensures items == Put(old(items), CustomersKey, CustomerList(customers))
      ensures WellTyped(old(items)) ==> WellTyped(items)
    {
      SaveToStorage(CustomersKey, CustomerList(customers));
    }

    method SaveBusinessInfo(info: BusinessInfo)
      modifies this
      ensures items == Put(old(items), BusinessInfoKey, BusinessDoc(info))
      ensures WellTyped(old(items)) ==> WellTyped(items)
    {
      SaveSingleItem(BusinessInfoKey, BusinessDoc(info));
    }

    method SaveBookings(bookings: seq<Booking>)
      modifies this
      ensures items == Put(old(items), BookingsKey, BookingList(bookings))
      ensures WellTyped(old(items)) ==> WellTyped(items)
    {
      SaveToStorage(BookingsKey, BookingList(bookings));
    }

    method SaveQRCodes(codes: seq<QRCode>)
      modifies this
      ensures items == Put(old(items), QrCodesKey, QrCodeList(codes))
      ensures WellTyped(old(items)) ==> WellTyped(items)
    {
      SaveToStorage(QrCodesKey, QrCodeList(codes));
    }

    method SaveReferrals(referrals: seq<Referral>)
      modifies this
      ensures items == Put(old(items), ReferralsKey, ReferralList(referrals))
      ensures WellTyped(old(items)) ==> WellTyped(items)
    {
      SaveToStorage(ReferralsKey, ReferralList(referrals));
    }

    method SaveTransactions(transactions: seq<Transaction>)
      modifies this
      ensures items == Put(old(items), TransactionsKey, TransactionList(transactions))
      ensures WellTyped(old(items)) ==> WellTyped(items)
    {
      SaveToStorage(TransactionsKey, TransactionList(transactions));
    }

    method SaveNotifications(notifications: seq<Notification>)
      modifies this
      ensures items == Put(old(items), NotificationsKey, NotificationList(notifications))
      ensures WellTyped(old(items)) ==> WellTyped(items)
    {
      SaveToStorage(NotificationsKey, NotificationList(notifications));
    }

    method SaveAdminActions(actions: seq<AdminAction>)
      modifies this
      ensures items == Put(old(items), AdminActionsKey, AdminActionList(actions))
      ensures WellTyped(old(items)) ==> WellTyped(items)
    {
      SaveToStorage(AdminActionsKey, AdminActionList(actions));
    }

    /** `saveCurrentUser(user)`, where `null` is stored as the text "null". */
    method SaveCurrentUser(user: Option<Customer>)
      modifies this
      ensures items == Put(old(items), CurrentUserKey, UserDoc(user))
      ensures WellTyped(old(items)) ==> WellTyped(items)
    {
      SaveSingleItem(CurrentUserKey, UserDoc(user));
    }

    /** `clearCurrentUser()`: removes the current-user key only. */
    method ClearCurrentUser()
      modifies this
      ensures items == Remove(old(items), CurrentUserKey)
      ensures WellTyped(old(items)) ==> WellTyped(items)
    {
      items := items - {KeyName(CurrentUserKey)};
    }
  }
}
