/**
 * The simulated authentication of the affiliate application: customers
 * live in local storage, a login is an e-mail lookup (the password is not
 * checked), and the signed-in customer is persisted under its own key.
 */
module AuthContext {
  import opened Wrappers
  import opened Seqs
  import opened Text
  import opened Models
  import opened Storage

  /** `c.email.toLowerCase() === email.toLowerCase()`. */
  predicate EmailMatches(c: Customer, email: string) {
    Lower(c.email) == Lower(email)
  }

  /** The first stored customer whose e-mail matches, ignoring case. */
  function FindByEmail(cs: seq<Customer>, email: string): (r: Option<Customer>)
    ensures r.None? <==> forall i :: 0 <= i < |cs| ==> !EmailMatches(cs[i], email)
    ensures r.Some? ==> exists i :: 0 <= i < |cs| && cs[i] == r.value && EmailMatches(cs[i], email)
                                    && forall j :: 0 <= j < i ==> !EmailMatches(cs[j], email)
  {
    var r := Find((c: Customer) => EmailMatches(c, email), cs);
    assert r.Some? ==>
      exists i :: IsFirst((c: Customer) => EmailMatches(c, email), cs, i) && cs[i] == r.value;
    r
  }

  /**
   * The duplicate test of `register`.  A missing e-mail compares as
   * `undefined`, which no stored string equals, so it is never taken.
   */
  function EmailTaken(cs: seq<Customer>, email: Option<string>): (b: bool)
    ensures b <==> email.Some? && exists i :: 0 <= i < |cs| && EmailMatches(cs[i], email.value)
  {
    match email
    case None => false
    case Some(e) => Any((c: Customer) => EmailMatches(c, e), cs)
  }

  /** `s || ''` for a string that may be missing: a missing value and "" both give "". */
  function OrEmpty(s: Option<string>): string {
    s.GetOr("")
  }

  /** `s || ''` for an optional field, where the key may also hold `undefined`. */
  function OptOrEmpty(s: Option<Option<string>>): string {
    if s.Some? && s.value.Some? then s.value.value else ""
  }

  /** `userData.referrerId || null`: a missing, null or empty link becomes null. */
  function ReferrerOrNull(l: Option<Link>): (r: Link)
    ensures r.To? ==> l == Some(r) && r.id != ""
    ensures r.Null? <==> !(l.Some? && l.value.To? && l.value.id != "")
    ensures l.Some? && l.value.To? && l.value.id != "" ==> r == l.value
  {
    if l.Some? && l.value.To? && l.value.id != "" then l.value else Null
  }

  /**
   * The record `register` creates: an unverified customer with no free
   * hours, no QR code yet, created and updated now, and the submitted
   * fields with the `||` defaults.
   */
  function NewCustomer(data: Patch, id: string, now: int): (c: Customer)
    ensures c.id == id && c.createdAt == now && c.updatedAt == now
    ensures c.role == CustomerRole && !c.isVerified && c.freeHours == 0.0 && c.qrCodeUrl == None
    ensures data.email.Some? ==> c.email == data.email.value
    ensures data.email.None? ==> c.email == ""
    ensures c.firstName == (if data.firstName.Some? then data.firstName.value else "")
    ensures c.lastName == (if data.lastName.Some? then data.lastName.value else "")
    ensures data.description.Some? && data.description.value.Some? ==> c.description == data.description.value
    ensures !(data.description.Some? && data.description.value.Some?) ==> c.description == Some("")
    ensures data.occupation.Some? && data.occupation.value.Some? ==> c.occupation == data.occupation.value
    ensures !(data.occupation.Some? && data.occupation.value.Some?) ==> c.occupation == Some("")
    ensures c.age == (if data.age.Some? then data.age.value else None)
    ensures c.referrerId == ReferrerOrNull(data.referrerId)
  {
    Customer(
      id := id,
      email := OrEmpty(data.email),
      firstName := OrEmpty(data.firstName),
      lastName := OrEmpty(data.lastName),
      description := Some(OptOrEmpty(data.description)),
      age := if data.age.Some? then data.age.value else None,
      occupation := Some(OptOrEmpty(data.occupation)),
      createdAt := now,
      updatedAt := now,
      isVerified := false,
      qrCodeUrl := None,
      freeHours := 0.0,
      referrerId := ReferrerOrNull(data.referrerId),
      role := CustomerRole)
  }

  /** `a ?? b` on the keys of a patch. */
  function Or<T>(a: Option<T>, b: Option<T>): Option<T> {
    if a.Some? then a else b
  }

  /** `{ ...user, ...data, updatedAt: now }`. */
  function Merge(user: Customer, data: Patch, now: int): (r: Customer)
    ensures r.updatedAt == now
  {
    user.(
      id := data.id.GetOr(user.id),
      email := data.email.GetOr(user.email),
      firstName := data.firstName.GetOr(user.firstName),
      lastName := data.lastName.GetOr(user.lastName),
      description := data.description.GetOr(user.description),
      age := data.age.GetOr(user.age),
      occupation := data.occupation.GetOr(user.occupation),
      createdAt := data.createdAt.GetOr(user.createdAt),
      updatedAt := now,
      isVerified := data.isVerified.GetOr(user.isVerified),
      qrCodeUrl := data.qrCodeUrl.GetOr(user.qrCodeUrl),
      freeHours := data.freeHours.GetOr(user.freeHours),
      referrerId := data.referrerId.GetOr(user.referrerId),
      role := data.role.GetOr(user.role))
  }

  /** `{ ...p, ...q }`: the keys of `q` win. */
  function Overlay(p: Patch, q: Patch): Patch {
    Patch(Or(q.id, p.id), Or(q.email, p.email), Or(q.firstName, p.firstName), Or(q.lastName, p.lastName),
          Or(q.description, p.description), Or(q.age, p.age), Or(q.occupation, p.occupation),
          Or(q.createdAt, p.createdAt), Or(q.updatedAt, p.updatedAt), Or(q.isVerified, p.isVerified),
          Or(q.qrCodeUrl, p.qrCodeUrl), Or(q.freeHours, p.freeHours), Or(q.referrerId, p.referrerId),
          Or(q.role, p.role))
  }

  /** An update with no fields only refreshes `updatedAt`. */
  lemma MergeEmpty(user: Customer, now: int)
    ensures Merge(user, EmptyPatch, now) == user.(updatedAt := now)
  {
  }

  /** A patch's keys win over the record, and `updatedAt` wins over the patch. */
  lemma MergeOverrides(user: Customer, data: Patch, now: int)
    ensures var r := Merge(user, data, now);
      && r.updatedAt == now
      && (data.id.Some? ==> r.id == data.id.value) && (data.id.None? ==> r.id == user.id)
      && (data.email.Some? ==> r.email == data.email.value) && (data.email.None? ==> r.email == user.email)
      && (data.firstName.Some? ==> r.firstName == data.firstName.value)
      && (data.firstName.None? ==> r.firstName == user.firstName)
      && (data.lastName.Some? ==> r.lastName == data.lastName.value)
      && (data.lastName.None? ==> r.lastName == user.lastName)
      && (data.description.Some? ==> r.description == data.description.value)
      && (data.description.None? ==> r.description == user.description)
      && (data.age.Some? ==> r.age == data.age.value) && (data.age.None? ==> r.age == user.age)
      && (data.occupation.Some? ==> r.occupation == data.occupation.value)
      && (data.occupation.None? ==> r.occupation == user.occupation)
      && (data.createdAt.Some? ==> r.createdAt == data.createdAt.value)
      && (data.createdAt.None? ==> r.createdAt == user.createdAt)
      && (data.isVerified.Some? ==> r.isVerified == data.isVerified.value)
      && (data.isVerified.None? ==> r.isVerified == user.isVerified)
      && (data.qrCodeUrl.Some? ==> r.qrCodeUrl == data.qrCodeUrl.value)
      && (data.qrCodeUrl.None? ==> r.qrCodeUrl == user.qrCodeUrl)
      && (data.freeHours.Some? ==> r.freeHours == data.freeHours.value)
      && (data.freeHours.None? ==> r.freeHours == user.freeHours)
      && (data.referrerId.Some? ==> r.referrerId == data.referrerId.value)
      && (data.referrerId.None? ==> r.referrerId == user.referrerId)
      && (data.role.Some? ==> r.role == data.role.value) && (data.role.None? ==> r.role == user.role)
  {
  }

  /** Applying the same update twice is the same as applying it once. */
  lemma MergeIdempotent(user: Customer, data: Patch, now: int)
    ensures Merge(Merge(user, data, now), data, now) == Merge(user, data, now)
  {
  }

  /** Two updates in a row are one update with the spread of both patches. */
  lemma MergeOverlay(user: Customer, p: Patch, q: Patch, first: int, second: int)
    ensures Merge(Merge(user, p, first), q, second) == Merge(user, Overlay(p, q), second)
  {
  }

  /** `customers.map(c => c.id === id ? updated : c)`. */
  function ReplaceCustomer(cs: seq<Customer>, id: string, updated: Customer): (r: seq<Customer>)
    ensures |r| == |cs|
    ensures forall i :: 0 <= i < |cs| && cs[i].id == id ==> r[i] == updated
    ensures forall i :: 0 <= i < |cs| && cs[i].id != id ==> r[i] == cs[i]
  {
    Map((c: Customer) => if c.id == id then updated else c, cs)
  }

  /** No two customers share an id. */
  predicate UniqueIds(cs: seq<Customer>) {
    forall i, j :: 0 <= i < j < |cs| ==> cs[i].id != cs[j].id
  }

  /** The storage after a successful `register`: the customer appended and signed in. */
  function Registered(items: Items, data: Patch, id: string, now: int): Items {
    var u := NewCustomer(data, id, now);
    Put(Put(items, CustomersKey, CustomerList(LoadCustomers(items) + [u])), CurrentUserKey, UserDoc(Some(u)))
  }

  /** The storage after a successful `login`. */
  function LoggedIn(items: Items, user: Customer): Items {
    Put(items, CurrentUserKey, UserDoc(Some(user)))
  }

  /** The storage after `updateProfile` for the signed-in `user`. */
  function ProfileUpdated(items: Items, user: Customer, data: Patch, now: int): Items {
    var u := Merge(user, data, now);
    Put(Put(items, CustomersKey, CustomerList(ReplaceCustomer(LoadCustomers(items), user.id, u))),
        CurrentUserKey, UserDoc(Some(u)))
  }

  /** After registering, the customer list has grown by the new record, which is the signed-in user. */
  lemma RegisteredLoads(items: Items, data: Patch, id: string, now: int)
    ensures var after := Registered(items, data, id, now);
      && LoadCustomers(after) == LoadCustomers(items) + [NewCustomer(data, id, now)]
      && LoadCurrentUser(after) == Some(NewCustomer(data, id, now))
  {
    var u := NewCustomer(data, id, now);
    var mid := Put(items, CustomersKey, CustomerList(LoadCustomers(items) + [u]));
    PutFrame(mid, CurrentUserKey, UserDoc(Some(u)), CustomersKey);
    TypedRoundTrips(items, LoadCustomers(items) + [u], [], None);
    TypedRoundTrips(mid, [], [], Some(u));
  }

  /** Registering touches no key but the customers and the signed-in user. */
  lemma RegisteredFrame(items: Items, data: Patch, id: string, now: int, other: Key)
    requires other != CustomersKey && other != CurrentUserKey
    ensures IsCollection(other) ==>
              LoadFromStorage(Registered(items, data, id, now), other) == LoadFromStorage(items, other)
    ensures LoadSingleItem(Registered(items, data, id, now), other) == LoadSingleItem(items, other)
  {
    var u := NewCustomer(data, id, now);
    var mid := Put(items, CustomersKey, CustomerList(LoadCustomers(items) + [u]));
    PutFrame(items, CustomersKey, CustomerList(LoadCustomers(items) + [u]), other);
    PutFrame(mid, CurrentUserKey, UserDoc(Some(u)), other);
  }

  /**
   * A customer who registered with an e-mail no one else uses can then log
   * in with that e-mail in any letter case, and finds their own record.
   */
  lemma RegisterThenLogin(items: Items, data: Patch, id: string, now: int, email: string)
    requires data.email.Some? && !EmailTaken(LoadCustomers(items), data.email)
    requires Lower(email) == Lower(data.email.value)
    ensures FindByEmail(LoadCustomers(Registered(items, data, id, now)), email) == Some(NewCustomer(data, id, now))
  {
    var cs := LoadCustomers(items);
    var u := NewCustomer(data, id, now);
    RegisteredLoads(items, data, id, now);
    assert FindByEmail(cs, email).None?;
    FindAppend((c: Customer) => EmailMatches(c, email), cs, u);
  }

  /**
   * A registration without an e-mail is never refused, even when a
   * customer with the empty e-mail it is given already exists; a login
   * with the empty e-mail then still finds the earlier customer, never the
   * later one.
   */
  lemma RegisterWithoutEmailTwice(items: Items, first: Patch, second: Patch, id1: string, id2: string, now: int)
    requires first.email.None? && second.email.None?
    ensures var once := Registered(items, first, id1, now);
      && !EmailTaken(LoadCustomers(items), first.email)
      && !EmailTaken(LoadCustomers(once), second.email)
      && NewCustomer(first, id1, now).email == "" && NewCustomer(second, id2, now).email == ""
      && FindByEmail(LoadCustomers(once), "").Some?
      && FindByEmail(LoadCustomers(Registered(once, second, id2, now)), "") == FindByEmail(LoadCustomers(once), "")
  {
    var once := Registered(items, first, id1, now);
    var u1 := NewCustomer(first, id1, now);
    var u2 := NewCustomer(second, id2, now);
    RegisteredLoads(items, first, id1, now);
    RegisteredLoads(once, second, id2, now);
    var cs := LoadCustomers(once);
    assert cs[|cs| - 1] == u1 && EmailMatches(u1, "");
    FindAppend((c: Customer) => EmailMatches(c, ""), cs, u2);
  }

  /** A fresh id keeps customer ids unique. */
  lemma RegisterKeepsIdsUnique(items: Items, data: Patch, id: string, now: int)
    requires UniqueIds(LoadCustomers(items))
    requires forall i :: 0 <= i < |LoadCustomers(items)| ==> LoadCustomers(items)[i].id != id
    ensures UniqueIds(LoadCustomers(Registered(items, data, id, now)))
  {
    RegisteredLoads(items, data, id, now);
  }

  /**
   * An update that does not set `id` keeps the ids of all customers, so
   * they stay unique, and the stored record and the signed-in user agree.
   */
  lemma UpdateKeepsIds(items: Items, user: Customer, data: Patch, now: int)
    requires data.id.None?
    ensures var cs := LoadCustomers(items);
      var after := LoadCustomers(ProfileUpdated(items, user, data, now));
      && |after| == |cs|
      && (forall i :: 0 <= i < |cs| ==> after[i].id == cs[i].id)
      && (UniqueIds(cs) ==> UniqueIds(after))
      && LoadCurrentUser(ProfileUpdated(items, user, data, now)) == Some(Merge(user, data, now))
      && (forall i :: 0 <= i < |cs| && cs[i].id == user.id ==> after[i] == Merge(user, data, now))
  {
    var cs := LoadCustomers(items);
    var u := Merge(user, data, now);
    var list := ReplaceCustomer(cs, user.id, u);
    var mid := Put(items, CustomersKey, CustomerList(list));
    PutFrame(mid, CurrentUserKey, UserDoc(Some(u)), CustomersKey);
    TypedRoundTrips(items, list, [], None);
    TypedRoundTrips(mid, [], [], Some(u));
  }

  class AuthProvider {
    var currentUser: Option<Customer>
    var loading: bool
    const store: LocalStore

    /** The provider before its mount effect has run. */
    constructor(store: LocalStore)
      ensures this.store == store && currentUser == None && loading
    {
      this.store := store;
      currentUser := None;
      loading := true;
    }

    /** The mount effect: restore the persisted user and stop loading. */
    method Mount()
      modifies this
      ensures currentUser == LoadCurrentUser(store.items) && !loading
    {
      currentUser := LoadCurrentUser(store.items);
      loading := false;
    }

    /** `login`: succeeds exactly when a stored customer has the e-mail; the password is ignored. */
    method Login(email: string, password: string) returns (ok: bool)
      modifies this, store
      ensures var found := FindByEmail(LoadCustomers(old(store.items)), email);
        && ok == found.Some?
        && (ok ==> currentUser == found && store.items == LoggedIn(old(store.items), found.value))
        && (!ok ==> currentUser == old(currentUser) && store.items == old(store.items))
      ensures loading == old(loading)
    {
      var user := FindByEmail(LoadCustomers(store.items), email);
      if user.None? {
        return false;
      }
      currentUser := user;
      store.SaveCurrentUser(user);
      return true;
    }

    /** `register`: refuses a taken e-mail; otherwise stores the new customer and signs them in. */
    method Register(data: Patch, password: string, freshId: string, now: int) returns (ok: bool)
      modifies this, store
      ensures ok == !EmailTaken(LoadCustomers(old(store.items)), data.email)
      ensures ok ==>
                currentUser == Some(NewCustomer(data, freshId, now))
                && store.items == Registered(old(store.items), data, freshId, now)
      ensures !ok ==> currentUser == old(currentUser) && store.items == old(store.items)
      ensures loading == old(loading)
    {
      var customers := LoadCustomers(store.items);
      if EmailTaken(customers, data.email) {
        return false;
      }
      var newUser := NewCustomer(data, freshId, now);
      customers := customers + [newUser];
      store.SaveCustomers(customers);
      currentUser := Some(newUser);
      store.SaveCurrentUser(currentUser);
      return true;
    }

    /** `logout`. */
    method Logout()
      modifies this, store
      ensures currentUser == None && store.items == Remove(old(store.items), CurrentUserKey)
      ensures loading == old(loading)
    {
      currentUser := None;
      store.ClearCurrentUser();
    }

    /** `updateProfile`: fails when no one is signed in; otherwise merges the patch everywhere. */
    method UpdateProfile(data: Patch, now: int) returns (ok: bool)
      modifies this, store
      ensures ok == old(currentUser).Some?
      ensures ok ==>
                currentUser == Some(Merge(old(currentUser).value, data, now))
                && store.items == ProfileUpdated(old(store.items), old(currentUser).value, data, now)
      ensures !ok ==> currentUser == old(currentUser) && store.items == old(store.items)
      ensures loading == old(loading)
    {
      if currentUser.None? {
        return false;
      }
      var user := currentUser.value;
      var customers := LoadCustomers(store.items);
      var updatedUser := Merge(user, data, now);
      store.SaveCustomers(ReplaceCustomer(customers, user.id, updatedUser));
      currentUser := Some(updatedUser);
      store.SaveCurrentUser(currentUser);
      return true;
    }
  }
}
