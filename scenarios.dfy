/**
  Worked examples on concrete data: one offer priced end to end, and the
  inputs that show the two findings (an offer message that cannot be built
  when one price fails, and offers that stay saved when a later variant of
  the same form fails to parse).
*/
module Scenarios {
  import opened Wrappers
  import opened Text
  import opened Models
  import opened Rates
  import opened Matching
  import opened Pricing
  import opened Notification
  import opened FormData
  import opened Views

  const PHONE := Offer(1, 1, Some("Apple"), None, "Apple iPhone 15 Pro 256GB", "", "New", "", "", 0,
                       Some(100.0), "USD", Some(20.0), "AED", "OFF-00001")
  const FEES := [SubscriberDeviceFee("iPhone", 30.0, "AED"), SubscriberDeviceFee("iPhone 15 Pro", 50.0, "AED")]
  const BUYER := Subscriber(1, "Buyer", "0501234567", External, true, "SAR", FEES, None)
  const RATES: RateTable := map[("USD", "SAR") := 3.75, ("AED", "SAR") := 1.02]

  lemma LowerName()
    ensures Lower("Apple iPhone 15 Pro 256GB") == "apple iphone 15 pro 256gb"
  {
  }

  lemma LowerKeywords()
    ensures Lower("iPhone 15 Pro") == "iphone 15 pro" && Lower("iPhone") == "iphone"
  {
  }

  lemma UpperCodes()
    ensures Upper("USD") == "USD" && Upper("AED") == "AED" && Upper("SAR") == "SAR" && Upper("EUR") == "EUR"
  {
  }

  /** Of two keywords that both occur, the longer second one is chosen. */
  lemma LongerSecondWins(keys: seq<string>, hay: string)
    requires |keys| == 2 && Contains(hay, keys[0]) && Contains(hay, keys[1]) && |keys[1]| > |keys[0]|
    ensures LongestFirst(keys, hay, false, 2) == Some(1)
  {
    assert LongestFirst(keys, hay, false, 1) == Some(0);
  }

  lemma FeeKeywords()
    ensures FeeKeys(FEES) == ["iphone", "iphone 15 pro"]
  {
    LowerKeywords();
  }

  lemma NameHoldsKeywords()
    ensures Contains(Lower(PHONE.name), "iphone") && Contains(Lower(PHONE.name), "iphone 15 pro")
  {
    LowerName();
    NameHoldsShortKeyword();
    NameHoldsLongKeyword();
  }

  lemma NameHoldsShortKeyword()
    ensures Contains("apple iphone 15 pro 256gb", "iphone")
  {
    assert "apple iphone 15 pro 256gb" == "apple " + "iphone" + " 15 pro 256gb";
    ContainsMiddle("apple ", "iphone", " 15 pro 256gb");
  }

  lemma NameHoldsLongKeyword()
    ensures Contains("apple iphone 15 pro 256gb", "iphone 15 pro")
  {
    assert "apple iphone 15 pro 256gb" == "apple " + "iphone 15 pro" + " 256gb";
    ContainsMiddle("apple ", "iphone 15 pro", " 256gb");
  }

  lemma ContainsMiddle(a: string, b: string, c: string)
    ensures Contains(a + b + c, b)
  {
    assert (a + b + c)[|a|..|a| + |b|] == b;
    ContainsAt(a + b + c, b, |a|);
  }

  /** Both fee keywords occur in the offer name; the longer one, "iPhone 15 Pro", applies. */
  lemma IphoneFee()
    ensures BestFee(FEES, PHONE.name) == Some(1)
  {
    FeeKeywords();
    NameHoldsKeywords();
    LongerSecondWins(FeeKeys(FEES), Lower(PHONE.name));
  }

  /**
    100 USD at 3.75, plus 20 AED of shipping and the 50 AED device fee at
    1.02 each: 375 + 20.40 + 51 = 446.40 SAR.
  */
  lemma PricedEndToEnd()
    ensures FinalPrice(RATES, PHONE, BUYER) == Priced(44640, "SAR")
  {
    LowerName();
    LowerKeywords();
    UpperCodes();
    IphoneFee();
    assert GetConversionRate(RATES, "USD", "SAR") == Some(3.75);
    assert GetConversionRate(RATES, "AED", "SAR") == Some(1.02);
    assert ShippingAddend(RATES, PHONE, "SAR") == 20.4;
    assert DeviceFeeAddend(RATES, PHONE, BUYER, "SAR") == 51.0;
    assert ExactTotal(RATES, PHONE, BUYER, 3.75) == 446.4;
  }

  /** The same offer quoted in euros, for which no rate is stored. */
  const EURO_PHONE := PHONE.(currency := "EUR")

  /**
    As written, one offer without a usable rate makes the whole message
    impossible to build, while the intended message still lists it as
    "price unavailable".
  */
  lemma MissingRateLosesMessage()
    ensures FinalPrice(RATES, EURO_PHONE, BUYER).PriceError?
    ensures OfferMessage(EnginePrice(RATES, BUYER), BUYER, [PHONE, EURO_PHONE], "SUP-001").None?
    ensures Price(Unavailable) in IntendedOffersLines(EnginePrice(RATES, BUYER), [PHONE, EURO_PHONE])
  {
    LowerName();
    LowerKeywords();
    UpperCodes();
    assert PairKey("EUR", "SAR") == ("EUR", "SAR");
    assert PairKey("SAR", "EUR") == ("SAR", "EUR");
    assert GetConversionRate(RATES, "EUR", "SAR").None?;
    var price := EnginePrice(RATES, BUYER);
    var offers := [PHONE, EURO_PHONE];
    assert price(offers[1]).PriceError?;
    MessageFailsIffSomePriceFails(price, BUYER, offers, "SUP-001");
    IntendedListsFailedOffer(price, offers, 1);
  }

  // -----------------------------------------------------------------------
  // A form whose second variant has a price that does not parse

  /** Parsers that reject every text, as `Decimal("abc")` does. */
  const REJECTING := Parsers(s => None, s => None)

  /** The posted items: a group "iPhone", a variant named "Black", a variant whose price is "abc". */
  const ITEMS: seq<(string, string)> := [
    (GroupKey(0, "grouping_name"), "iPhone"),
    (VariantKey(0, 0, "name"), "Black"),
    (VariantKey(0, 1, "price"), "abc")
  ]

  const FORM: Reconstruction :=
    map[0 := GroupData(map["grouping_name" := "iPhone"], map[0 := map["name" := "Black"], 1 := map["price" := "abc"]])]

  /** The keys are the ones the offer form writes. */
  lemma PostedKeys()
    ensures ITEMS[0].0 == "group-0-grouping_name"
    ensures ITEMS[1].0 == "group-0-variant-0-name"
    ensures ITEMS[2].0 == "group-0-variant-1-price"
  {
    assert NatToString(0) == "0";
    assert NatToString(1) == "1";
  }

  /** The view reconstructs exactly FORM from the posted items. */
  lemma PostedForm()
    ensures Reconstructed(ITEMS) == FORM
  {
    assert AllWordChars("grouping_name") && AllWordChars("name") && AllWordChars("price");
    ParseGroupKey(0, "grouping_name");
    ParseVariantKey(0, 0, "name");
    ParseVariantKey(0, 1, "price");
    ThreeItems(ITEMS[0].0, ITEMS[1].0, ITEMS[2].0);
    assert ITEMS == [(ITEMS[0].0, "iPhone"), (ITEMS[1].0, "Black"), (ITEMS[2].0, "abc")];
  }

  /** Any three keys addressing the group name and the two variant fields give FORM. */
  lemma ThreeItems(k0: string, k1: string, k2: string)
    requires ParseKey(k0) == GroupField(0, "grouping_name")
    requires ParseKey(k1) == VariantField(0, 0, "name")
    requires ParseKey(k2) == VariantField(0, 1, "price")
    ensures Reconstructed([(k0, "iPhone"), (k1, "Black"), (k2, "abc")]) == FORM
  {
    ReconstructedThree((k0, "iPhone"), (k1, "Black"), (k2, "abc"));
    NameStored(k0);
    VariantNameStored(k1);
    VariantPriceStored(k2);
  }

  /** Three posted items are stored one after the other. */
  lemma ReconstructedThree(a: (string, string), b: (string, string), c: (string, string))
    ensures Reconstructed([a, b, c]) == Store(Store(Store(map[], a.0, a.1), b.0, b.1), c.0, c.1)
  {
    var items := [a, b, c];
    assert items[..1][..0] == [];
    assert Reconstructed(items[..1]) == Store(map[], a.0, a.1);
    assert items[..2][..1] == items[..1];
    assert Reconstructed(items[..2]) == Store(Store(map[], a.0, a.1), b.0, b.1);
    assert items[..2] == items[..|items| - 1];
  }

  /** The form after the group name. */
  const NAMED: Reconstruction := map[0 := GroupData(map["grouping_name" := "iPhone"], map[])]

  /** The form after the group name and the first variant's name. */
  const NAMED_VARIANT: Reconstruction :=
    map[0 := GroupData(map["grouping_name" := "iPhone"], map[0 := map["name" := "Black"]])]

  lemma NameStored(k0: string)
    requires ParseKey(k0) == GroupField(0, "grouping_name")
    ensures Store(map[], k0, "iPhone") == NAMED
  {
  }

  lemma VariantNameStored(k1: string)
    requires ParseKey(k1) == VariantField(0, 0, "name")
    ensures Store(NAMED, k1, "Black") == NAMED_VARIANT
  {
  }

  lemma VariantPriceStored(k2: string)
    requires ParseKey(k2) == VariantField(0, 1, "price")
    ensures Store(NAMED_VARIANT, k2, "abc") == FORM
  {
  }

  lemma SmallSortedKeys()
    ensures SortedKeys({0}) == [0]
    ensures SortedKeys({0, 1}) == [0, 1]
  {
    assert Least({0}) == 0;
    assert {0} - {0} == {};
    assert SortedKeys({0}) == [0];
    assert Least({0, 1}) == 0;
    assert {0, 1} - {0} == {1};
    assert Least({1}) == 1;
    assert {1} - {1} == {};
    assert SortedKeys({1}) == [1];
  }

  /** The form's only group is named "iPhone". */
  lemma FormHeader()
    ensures FORM.Keys == {0}
    ensures FORM[0].variants.Keys == {0, 1}
    ensures HeaderOf(7, FORM[0]).name == "iPhone"
  {
    assert Strip("iPhone") == "iPhone";
  }

  /** The first variant creates an offer with the defaults; the second does not parse. */
  lemma FormVariants(h: GroupHeader)
    requires h.name == "iPhone"
    ensures var first := Create(h, map["name" := "Black"], REJECTING);
      first.Created? && first.offer.name == "iPhone - Black" && first.offer.price == Some(0.0)
    ensures Create(h, map["price" := "abc"], REJECTING).Raised?
  {
    assert RoundCents(0.0) == 0;
  }

  /** Two variants, the first of which builds and the second of which fails. */
  lemma BuildsThenFails(build: map<string, string> -> Creation, variants: map<nat, map<string, string>>)
    requires 0 in variants && 1 in variants
    requires build(variants[0]).Created? && build(variants[1]).Raised?
    ensures GroupDrafts(build, variants, [0, 1]) == Built([build(variants[0]).offer], true, false)
  {
    assert [0, 1][..1] == [0];
    assert GroupDrafts(build, variants, [0]) == Built([build(variants[0]).offer], false, false);
  }

  lemma FormGroup()
    ensures var c := Create(HeaderOf(7, FORM[0]), map["name" := "Black"], REJECTING);
      c.Created? && GroupBuilt(7, FORM[0], REJECTING) == Built([c.offer], true, false)
  {
    SmallSortedKeys();
    FormHeader();
    var gd := FORM[0];
    var h := HeaderOf(7, gd);
    FormVariants(h);
    assert gd.variants[0] == map["name" := "Black"] && gd.variants[1] == map["price" := "abc"];
    BuildsThenFails(Builder(h, REJECTING), gd.variants);
  }

  lemma FormBuildsOneThenFails()
    ensures var b := FormDrafts(7, FORM, REJECTING);
      b.failed && !b.refused && |b.drafts| == 1 && b.drafts[0].name == "iPhone - Black" && b.drafts[0].price == Some(0.0)
  {
    SmallSortedKeys();
    FormHeader();
    FormGroup();
    FormVariants(HeaderOf(7, FORM[0]));
    var groupBuilt := GroupBuilder(7, REJECTING);
    var b := groupBuilt(FORM[0]);
    assert Drafts(groupBuilt, FORM, [0]) == Built([] + b.drafts, b.failed, b.refused);
  }

  /**
    As written, saving the posted items fails, yet the offer built before
    the failure is in the table afterwards under a fresh key.
  */
  lemma FailedFormKeepsOffer(rows: map<nat, Offer>, first: nat)
    requires forall k :: k in rows ==> k < first
    ensures var b := FormDrafts(7, Reconstructed(ITEMS), REJECTING);
      var saved := Stamped(b.drafts, first);
      && b.failed && !b.refused
      && first in Stored(rows, saved) && first !in rows
      && Stored(rows, saved)[first].name == "iPhone - Black"
  {
    PostedForm();
    FormBuildsOneThenFails();
    var b := FormDrafts(7, FORM, REJECTING);
    var saved := Stamped(b.drafts, first);
    StampedKeys(b.drafts, first);
    StoredKeepsAndAdds(rows, saved, first);
  }

  // -----------------------------------------------------------------------
  // A quantity the database refuses

  /** `Decimal(text)` and `int(text)` for a form whose only number is the quantity -1. */
  const MINUS_ONE := Parsers(s => None, s => if s == "-1" then Some(-1) else None)

  const NEGATIVE_FORM: Reconstruction :=
    map[0 := GroupData(map["grouping_name" := "iPhone"], map[0 := map["quantity" := "-1"]])]

  /**
    A variant posting the quantity -1 parses, but the database refuses the
    row: building stops on a refusal before any offer is created, so the
    save views roll the request back.
  */
  lemma NegativeQuantityIsRefused()
    ensures var b := FormDrafts(7, NEGATIVE_FORM, MINUS_ONE);
      b.failed && b.refused && b.drafts == []
  {
    assert NEGATIVE_FORM.Keys == {0};
    SmallSortedKeys();
    NegativeGroup();
    var groupBuilt := GroupBuilder(7, MINUS_ONE);
    assert groupBuilt(NEGATIVE_FORM[0]) == Built([], true, true);
    OneGroup(groupBuilt, NEGATIVE_FORM);
  }

  /** A form with one group builds what that group builds. */
  lemma OneGroup(groupBuilt: GroupData -> Built, data: Reconstruction)
    requires 0 in data
    ensures Drafts(groupBuilt, data, [0]) == groupBuilt(data[0])
  {
    assert [0][..0] == [];
    assert [] + groupBuilt(data[0]).drafts == groupBuilt(data[0]).drafts;
  }

  lemma NegativeGroup()
    ensures GroupBuilt(7, NEGATIVE_FORM[0], MINUS_ONE) == Built([], true, true)
  {
    SmallSortedKeys();
    var gd := NEGATIVE_FORM[0];
    assert Strip("iPhone") == "iPhone";
    var h := HeaderOf(7, gd);
    assert gd.variants.Keys == {0} && gd.variants[0] == map["quantity" := "-1"];
    NegativeCreate(h);
    RefusedFirst(Builder(h, MINUS_ONE), gd.variants);
  }

  lemma NegativeCreate(h: GroupHeader)
    ensures Create(h, map["quantity" := "-1"], MINUS_ONE) == Rejected
  {
    assert MINUS_ONE.integer("-1") == Some(-1);
  }

  /** A single variant that the database refuses. */
  lemma RefusedFirst(build: map<string, string> -> Creation, variants: map<nat, map<string, string>>)
    requires 0 in variants && build(variants[0]).Rejected?
    ensures GroupDrafts(build, variants, [0]) == Built([], true, true)
  {
    assert [0][..0] == [];
  }
}
