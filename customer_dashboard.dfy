/**
 * The customer dashboard: the signed-in customer's QR code and
 * referrals, and the generation of a referral QR code.
 */
module CustomerDashboard {
  import opened Wrappers
  import opened Seqs
  import opened Models
  import opened Storage

  /** The first stored code of the customer. */
  function UserQrCode(codes: seq<QRCode>, userId: string): (r: Option<QRCode>)
    ensures r.None? <==> forall i :: 0 <= i < |codes| ==> codes[i].customerId != userId
    ensures r.Some? ==> exists i :: 0 <= i < |codes| && codes[i] == r.value && codes[i].customerId == userId
                                    && forall j :: 0 <= j < i ==> codes[j].customerId != userId
  {
    var r := Find((q: QRCode) => q.customerId == userId, codes);
    assert r.Some? ==> exists i :: IsFirst((q: QRCode) => q.customerId == userId, codes, i) && codes[i] == r.value;
    r
  }

  /** The referrals the customer made, in stored order. */
  function UserReferrals(referrals: seq<Referral>, userId: string): (r: seq<Referral>)
    ensures forall x :: x in r <==> x in referrals && x.referrerId == userId
    ensures forall x :: multiset(r)[x] == if x.referrerId == userId then multiset(referrals)[x] else 0
  {
    Filter((x: Referral) => x.referrerId == userId, referrals)
  }

  /** The referral filter keeps stored order: it works referral by referral. */
  lemma UserReferralsInOrder(a: seq<Referral>, b: seq<Referral>, x: Referral, userId: string)
    ensures UserReferrals(a + b, userId) == UserReferrals(a, userId) + UserReferrals(b, userId)
    ensures UserReferrals([x], userId) == if x.referrerId == userId then [x] else []
  {
    FilterConcat((x: Referral) => x.referrerId == userId, a, b);
  }

  const RefPrefix := "https://example.com/ref/"
  const QrServicePrefix := "https://api.qrserver.com/v1/create-qr-code/?size=200x200&data="

  /** The referral link of a customer. */
  function ReferralUrl(userId: string): (r: string)
    ensures |r| == |RefPrefix| + |userId| && r[..|RefPrefix|] == RefPrefix && r[|RefPrefix|..] == userId
  {
    RefPrefix + userId
  }

  /** Different customers get different referral links. */
  lemma ReferralUrlInjective(a: string, b: string)
    requires ReferralUrl(a) == ReferralUrl(b)
    ensures a == b
  {
    assert a == ReferralUrl(a)[|RefPrefix|..];
  }

  /** The code `generateQRCode` creates; `encode` stands for `encodeURIComponent`. */
  function NewQrCode(id: string, user: Customer, now: int, encode: string -> string): (q: QRCode)
    ensures q.id == id && q.customerId == user.id && q.createdAt == now
    ensures q.url == ReferralUrl(user.id) && q.imageUrl == QrServicePrefix + encode(q.url)
    ensures q.scansCount == 0 && q.lastScanned == None
  {
    QRCode(id, user.id, ReferralUrl(user.id), QrServicePrefix + encode(ReferralUrl(user.id)), now, 0, None)
  }

  /** The storage after a code is generated: the code appended to the stored list. */
  function QrGenerated(items: Items, q: QRCode): Items {
    Put(items, QrCodesKey, QrCodeList(LoadQRCodes(items) + [q]))
  }

  /**
   * Generation appends exactly one code and keeps the others; the lookup
   * then finds the new code for a customer who had none, keeps finding the
   * old one for a customer who had one, and is unchanged for everyone else.
   */
  lemma GeneratedLookup(items: Items, q: QRCode, userId: string)
    ensures LoadQRCodes(QrGenerated(items, q)) == LoadQRCodes(items) + [q]
    ensures userId == q.customerId && UserQrCode(LoadQRCodes(items), userId).None? ==>
              UserQrCode(LoadQRCodes(QrGenerated(items, q)), userId) == Some(q)
    ensures userId != q.customerId || UserQrCode(LoadQRCodes(items), userId).Some? ==>
              UserQrCode(LoadQRCodes(QrGenerated(items, q)), userId) == UserQrCode(LoadQRCodes(items), userId)
  {
    TypedRoundTrips(items, [], LoadQRCodes(items) + [q], None);
    FindAppend((c: QRCode) => c.customerId == userId, LoadQRCodes(items), q);
  }

  /** Generation touches no other key. */
  lemma GeneratedFrame(items: Items, q: QRCode, other: Key)
    requires other != QrCodesKey
    ensures IsCollection(other) ==> LoadFromStorage(QrGenerated(items, q), other) == LoadFromStorage(items, other)
    ensures LoadSingleItem(QrGenerated(items, q), other) == LoadSingleItem(items, other)
  {
    PutFrame(items, QrCodesKey, QrCodeList(LoadQRCodes(items) + [q]), other);
  }

  class Dashboard {
    var qrCode: Option<QRCode>
    var referrals: seq<Referral>
    var isGeneratingQR: bool
    /** The customer captured by a scheduled generation callback. */
    var pending: Option<Customer>
    const store: LocalStore

    constructor(store: LocalStore)
      ensures this.store == store && qrCode == None && referrals == [] && !isGeneratingQR && pending == None
    {
      this.store := store;
      qrCode, referrals, isGeneratingQR, pending := None, [], false, None;
    }

    /** The load effect: without a signed-in customer nothing is loaded. */
    method LoadForUser(currentUser: Option<Customer>)
      modifies this
      ensures currentUser.Some? ==>
                qrCode == UserQrCode(LoadQRCodes(store.items), currentUser.value.id)
                && referrals == UserReferrals(LoadReferrals(store.items), currentUser.value.id)
      ensures currentUser.None? ==> qrCode == old(qrCode) && referrals == old(referrals)
      ensures isGeneratingQR == old(isGeneratingQR) && pending == old(pending)
    {
      if currentUser.Some? {
        qrCode := UserQrCode(LoadQRCodes(store.items), currentUser.value.id);
        referrals := UserReferrals(LoadReferrals(store.items), currentUser.value.id);
      }
    }

    /**
     * `generateQRCode`: does nothing when signed out; otherwise schedules the
     * generation.  The button is disabled while `isGeneratingQR`, so a second
     * call never arrives before `GenerationDone`, and one pending slot is enough.
     */
    method GenerateQRCode(currentUser: Option<Customer>)
      modifies this
      ensures currentUser.None? ==> isGeneratingQR == old(isGeneratingQR) && pending == old(pending)
      ensures currentUser.Some? ==> isGeneratingQR && pending == currentUser
      ensures qrCode == old(qrCode) && referrals == old(referrals)
    {
      if currentUser.None? {
        return;
      }
      isGeneratingQR := true;
      pending := currentUser;
    }

    /** The timer callback: appends the new code to storage and shows it. */
    method GenerationDone(freshId: string, now: int, encode: string -> string)
      modifies this, store
      ensures old(pending).None? ==>
                qrCode == old(qrCode) && isGeneratingQR == old(isGeneratingQR) && store.items == old(store.items)
      ensures old(pending).Some? ==>
                var q := NewQrCode(freshId, old(pending).value, now, encode);
                qrCode == Some(q) && !isGeneratingQR && store.items == QrGenerated(old(store.items), q)
      ensures pending == None && referrals == old(referrals)
    {
      if pending.None? {
        return;
      }
      var q := NewQrCode(freshId, pending.value, now, encode);
      var codes := LoadQRCodes(store.items);
      codes := codes + [q];
      store.SaveQRCodes(codes);
      qrCode := Some(q);
      isGeneratingQR := false;
      pending := None;
    }
  }
}
