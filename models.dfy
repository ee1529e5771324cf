/**
  The records of the pricing system (management/models.py) as values, the
  declared uniqueness and default rules as predicates, and the two tables
  whose `save()` assigns a display code on first insertion.

  Brands and categories carry a unique name, so an offer refers to them by
  name; suppliers are referred to by primary key. A nullable text column
  whose uses only test truthiness is the empty string when it is null.
*/
module Models {
  import opened Wrappers
  import opened Text

  /** 1 unit of `fromCurrency` is worth `rate` units of `toCurrency`. */
  datatype CurrencyRate = CurrencyRate(fromCurrency: string, toCurrency: string, rate: real)

  datatype SubscriberType = Internal | External

  datatype SubscriberDeviceFee = SubscriberDeviceFee(deviceKeyword: string, fee: real, currency: string)

  /**
    A subscriber's allow-lists. An empty set means "every supplier / brand /
    category", not "none".
  */
  datatype Preference = Preference(
    allowedSuppliers: set<nat>,
    interestedBrands: set<string>,
    interestedCategories: set<string>)

  /**
    A subscriber together with the rows that hang off it: its device fees
    (in the order the database returns them) and its optional, one-to-one
    preference record.
  */
  datatype Subscriber = Subscriber(
    id: nat,
    name: string,
    whatsappNumber: string,
    subscriberType: SubscriberType,
    isActive: bool,
    targetCurrency: string,
    deviceFees: seq<SubscriberDeviceFee>,
    preferences: Option<Preference>)

  datatype Supplier = Supplier(pk: nat, name: string, contactInfo: string, code: string)

  /** An offer; `pk == 0` stands for "not saved yet". */
  datatype Offer = Offer(
    pk: nat,
    supplier: nat,
    brand: Option<string>,
    category: Option<string>,
    name: string,
    storage: string,
    condition: string,
    specRegion: string,
    color: string,
    quantity: int,
    price: Option<real>,
    currency: string,
    shippingCost: Option<real>,
    shippingCurrency: string,
    code: string)

  // -----------------------------------------------------------------------
  // Defaults and declared constraints

  const DEFAULT_TARGET_CURRENCY := "SAR"
  const DEFAULT_FEE_CURRENCY := "AED"

  /** A subscriber created with only the required fields: EXTERNAL, active, priced in SAR. */
  function NewSubscriber(id: nat, name: string, whatsappNumber: string): Subscriber {
    Subscriber(id, name, whatsappNumber, External, true, DEFAULT_TARGET_CURRENCY, [], None)
  }

  /** At most one stored rate per ordered (from, to) pair. */
  predicate UniqueRatePairs(rows: seq<CurrencyRate>) {
    forall i, j :: 0 <= i < j < |rows| ==>
      (rows[i].fromCurrency, rows[i].toCurrency) != (rows[j].fromCurrency, rows[j].toCurrency)
  }

  /** At most one fee per (subscriber, device keyword); the fee is declared non-negative. */
  predicate ValidDeviceFees(fees: seq<SubscriberDeviceFee>) {
    && (forall i, j :: 0 <= i < j < |fees| ==> fees[i].deviceKeyword != fees[j].deviceKeyword)
    && (forall i :: 0 <= i < |fees| ==> fees[i].fee >= 0.0)
  }

  // -----------------------------------------------------------------------
  // Display codes

  /** `f"SUP-{pk:04d}"` */
  function SupplierCode(pk: nat): string {
    "SUP-" + ZeroPad(pk, 4)
  }

  /** `f"OFF-{pk:05d}"` */
  function OfferCode(pk: nat): string {
    "OFF-" + ZeroPad(pk, 5)
  }

  /**
    A supplier code is "SUP-" followed by at least four digits that read
    back as the primary key, so distinct suppliers get distinct codes.
  */
  lemma SupplierCodeDecodes(pk: nat)
    ensures StartsWith(SupplierCode(pk), "SUP-")
    ensures var digits := SupplierCode(pk)[4..];
      && |digits| >= 4 && AllDigits(digits) && DigitsValue(digits) == pk
  {
    ZeroPadRoundTrip(pk, 4);
    assert SupplierCode(pk)[4..] == ZeroPad(pk, 4);
  }

  lemma SupplierCodeInjective(p: nat, q: nat)
    requires SupplierCode(p) == SupplierCode(q)
    ensures p == q
  {
    SupplierCodeDecodes(p);
    SupplierCodeDecodes(q);
  }

  /** An offer code is "OFF-" followed by at least five digits that read back as the primary key. */
  lemma OfferCodeDecodes(pk: nat)
    ensures StartsWith(OfferCode(pk), "OFF-")
    ensures var digits := OfferCode(pk)[4..];
      && |digits| >= 5 && AllDigits(digits) && DigitsValue(digits) == pk
  {
    ZeroPadRoundTrip(pk, 5);
    assert OfferCode(pk)[4..] == ZeroPad(pk, 5);
  }

  lemma OfferCodeInjective(p: nat, q: nat)
    requires OfferCode(p) == OfferCode(q)
    ensures p == q
  {
    OfferCodeDecodes(p);
    OfferCodeDecodes(q);
  }

  // -----------------------------------------------------------------------
  // Tables whose save() assigns the code

  /**
    The supplier table. The database hands out primary keys from `nextPk`
    upwards; every stored supplier's code was derived from its key.
  */
  class SupplierTable {
    var rows: map<nat, Supplier>
    var nextPk: nat

    ghost predicate Valid()
      reads this
    {
      && nextPk > 0
      && forall k :: k in rows ==> 0 < k < nextPk && rows[k].pk == k && rows[k].code == SupplierCode(k)
    }

    constructor ()
      ensures Valid() && rows == map[]
    {
      rows := map[];
      nextPk := 1;
    }

    /**
      `Supplier.save()`: an unsaved supplier is inserted, receives the next
      key and then its code; a stored one is written back with its code
      untouched (the edit form does not expose the code).
    */
    method Save(s: Supplier) returns (saved: Supplier)
      requires Valid()
      requires s.pk == 0 || (s.pk in rows && s.code == rows[s.pk].code)
      modifies this
      ensures Valid()
      ensures s.pk == 0 ==> saved == s.(pk := old(nextPk), code := SupplierCode(old(nextPk)))
      ensures s.pk == 0 ==> nextPk == old(nextPk) + 1
      ensures s.pk != 0 ==> saved == s && nextPk == old(nextPk)
      ensures rows == old(rows)[saved.pk := saved]
    {
      if s.pk == 0 {
        var pk := nextPk;
        nextPk := nextPk + 1;
        rows := rows[pk := s.(pk := pk)];
        saved := s.(pk := pk, code := SupplierCode(pk));
        rows := rows[pk := saved];
      } else {
        saved := s;
        rows := rows[s.pk := s];
      }
    }
  }

  /** The offer table, with the same code discipline as suppliers ("OFF-" and five digits). */
  class OfferTable {
    var rows: map<nat, Offer>
    var nextPk: nat

    ghost predicate Valid()
      reads this
    {
      && nextPk > 0
      && forall k :: k in rows ==> 0 < k < nextPk && rows[k].pk == k && rows[k].code == OfferCode(k)
    }

    constructor ()
      ensures Valid() && rows == map[]
    {
      rows := map[];
      nextPk := 1;
    }

    /** `Offer.save()`: first save assigns key and code, later saves keep the code. */
    method Save(o: Offer) returns (saved: Offer)
      requires Valid()
      requires o.pk == 0 || (o.pk in rows && o.code == rows[o.pk].code)
      modifies this
      ensures Valid()
      ensures o.pk == 0 ==> saved == o.(pk := old(nextPk), code := OfferCode(old(nextPk)))
      ensures o.pk == 0 ==> nextPk == old(nextPk) + 1
      ensures o.pk != 0 ==> saved == o && nextPk == old(nextPk)
      ensures rows == old(rows)[saved.pk := saved]
    {
      if o.pk == 0 {
        var pk := nextPk;
        nextPk := nextPk + 1;
        rows := rows[pk := o.(pk := pk)];
        saved := o.(pk := pk, code := OfferCode(pk));
        rows := rows[pk := saved];
      } else {
        saved := o;
        rows := rows[o.pk := o];
      }
    }
  }

  /** Saving a stored offer twice in a row changes nothing but the row it rewrites. */
  method SaveTwiceKeepsCode(table: OfferTable, o: Offer) returns (first: Offer, second: Offer)
    requires table.Valid() && o.pk == 0
    modifies table
    ensures table.Valid()
    ensures first.code == OfferCode(first.pk) && second == first
    ensures table.rows == old(table.rows)[first.pk := first]
  {
    first := table.Save(o);
    second := table.Save(first);
  }
}
