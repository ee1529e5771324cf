/**
  The saving side of the offer views: the mandatory-fee check that can
  block a save (`save_and_distribute_view`, `validate_fees_api`), the
  offers built from the reconstructed form, and the two save flows that
  hand the saved offers to the distribution engine.

  Parsing of decimal and integer text (`Decimal(...)`, `int(...)`) is a
  parameter: a parser answers `None` where Python raises.
*/
module Views {
  import opened Wrappers
  import opened Text
  import opened Models
  import opened Pricing
  import opened Rates
  import opened Notification
  import opened Distribution
  import opened FormData

  // -----------------------------------------------------------------------
  // Mandatory device fees

  /** One entry of `missing_fees_data`. */
  datatype MissingFee = MissingFee(subscriberId: nat, subscriberName: string, missingDevices: set<string>)

  /** The subscribers the fee check looks at: active and external. */
  predicate ExternalActive(s: Subscriber) {
    s.isActive && s.subscriberType == External
  }

  /** The device keywords a subscriber has a fee for. */
  function FeeKeywords(s: Subscriber): set<string> {
    set i | 0 <= i < |s.deviceFees| :: s.deviceFees[i].deviceKeyword
  }

  /** A subscriber is reported when it is checked and lacks a fee for some device name. */
  predicate Reported(names: set<string>, s: Subscriber) {
    ExternalActive(s) && names - FeeKeywords(s) != {}
  }

  function EntryFor(names: set<string>, s: Subscriber): MissingFee {
    MissingFee(s.id, s.name, names - FeeKeywords(s))
  }

  /** The report over the subscribers in database order. */
  function MissingReport(names: set<string>, subs: seq<Subscriber>): seq<MissingFee> {
    if subs == [] then []
    else
      var last := subs[|subs| - 1];
      MissingReport(names, subs[..|subs| - 1]) + (if Reported(names, last) then [EntryFor(names, last)] else [])
  }

  /**
    The report lists exactly the reported subscribers, in order, each with
    the device names it has no fee for; with no device names it is empty.
  */
  lemma {:induction false} MissingReportMeans(names: set<string>, subs: seq<Subscriber>)
    ensures forall e :: e in MissingReport(names, subs) ==>
      e.missingDevices != {} && exists i :: 0 <= i < |subs| && Reported(names, subs[i]) && e == EntryFor(names, subs[i])
    ensures forall i :: 0 <= i < |subs| && Reported(names, subs[i]) ==> EntryFor(names, subs[i]) in MissingReport(names, subs)
    ensures names == {} ==> MissingReport(names, subs) == []
  {
    if subs != [] {
      var init := subs[..|subs| - 1];
      MissingReportMeans(names, init);
      assert forall i :: 0 <= i < |init| ==> init[i] == subs[i];
    }
  }

  /** The loop over active external subscribers that collects `missing_fees_data`. */
  method CollectMissingFees(names: set<string>, subs: seq<Subscriber>) returns (report: seq<MissingFee>)
    ensures report == MissingReport(names, subs)
  {
    report := [];
    for i := 0 to |subs|
      invariant report == MissingReport(names, subs[..i])
    {
      assert subs[..i + 1][..i] == subs[..i];
      var sub := subs[i];
      if ExternalActive(sub) {
        var missing := names - FeeKeywords(sub);
        if missing != {} {
          report := report + [MissingFee(sub.id, sub.name, missing)];
        }
      }
    }
    assert subs[..|subs|] == subs;
  }

  /**
    `validate_fees_api`: the same report for the device names the page
    sends, empty when it sends none.
  */
  method ValidateFeesApi(deviceNames: seq<string>, subs: seq<Subscriber>) returns (report: seq<MissingFee>)
    ensures report == MissingReport(set i | 0 <= i < |deviceNames| :: deviceNames[i], subs)
  {
    var names := set i | 0 <= i < |deviceNames| :: deviceNames[i];
    if names == {} {
      MissingReportMeans(names, subs);
      report := [];
    } else {
      report := CollectMissingFees(names, subs);
    }
  }

  // -----------------------------------------------------------------------
  // Ascending key order (`sorted(d.items())`)

  predicate Increasing(r: seq<nat>) {
    forall i, j :: 0 <= i < j < |r| ==> r[i] < r[j]
  }

  /** `m` is the least element of `s`. */
  predicate IsLeast(m: nat, s: set<nat>) {
    m in s && forall x :: x in s ==> m <= x
  }

  lemma {:induction false} MinExists(s: set<nat>)
    requires s != {}
    ensures exists m :: IsLeast(m, s)
    decreases |s|
  {
    var x :| x in s;
    if !IsLeast(x, s) {
      var y :| y in s && y < x;
      var rest := s - {x};
      assert y in rest;
      MinExists(rest);
      var m :| IsLeast(m, rest);
      assert m <= y;
      forall z | z in s
        ensures m <= z
      {
        if z != x {
          assert z in rest;
        }
      }
      assert IsLeast(m, s);
    }
  }

  /** The least element of a non-empty set. */
  ghost function Least(s: set<nat>): (m: nat)
    requires s != {}
    ensures IsLeast(m, s)
  {
    MinExists(s);
    var m :| IsLeast(m, s);
    m
  }

  /** The keys of a map in ascending order. */
  ghost function SortedKeys(s: set<nat>): (r: seq<nat>)
    ensures Increasing(r)
    ensures forall x :: x in r <==> x in s
    decreases |s|
  {
    if s == {} then []
    else
      var m := Least(s);
      var r := SortedKeys(s - {m});
      assert forall i :: 0 <= i < |r| ==> r[i] in r;
      [m] + r
  }

  /** `sorted(keys)`: the least remaining key, repeatedly. */
  method SortKeys(s: set<nat>) returns (r: seq<nat>)
    ensures r == SortedKeys(s)
  {
    r := [];
    var rest := s;
    while rest != {}
      invariant r + SortedKeys(rest) == SortedKeys(s)
      decreases |rest|
    {
      MinExists(rest);
      var m :| IsLeast(m, rest);
      SortedKeysStep(rest, m);
      Associative(r, [m], SortedKeys(rest - {m}));
      r := r + [m];
      rest := rest - {m};
    }
    assert r + [] == r;
  }

  /** The least key comes first, followed by the others in order. */
  lemma SortedKeysStep(s: set<nat>, m: nat)
    requires IsLeast(m, s)
    ensures SortedKeys(s) == [m] + SortedKeys(s - {m})
  {
    var l := Least(s);
    assert l <= m && m <= l;
  }

  // -----------------------------------------------------------------------
  // Offers built from the reconstructed form

  /** Parsers standing for `Decimal(text)` and `int(text)`; `None` where Python raises. */
  datatype Parsers = Parsers(decimal: string -> Option<real>, integer: string -> Option<int>)

  /** `d.get(k, default)`. */
  function Get(m: map<string, string>, k: string, default: string): string {
    if k in m then m[k] else default
  }

  /** `d.get(k) or default`. */
  function GetOr(m: map<string, string>, k: string, default: string): string {
    if k in m && m[k] != "" then m[k] else default
  }

  /** `f"{group} - {variant}"` when the variant has a name, else the group name. */
  function FullName(groupName: string, variantName: string): string {
    if variantName != "" then groupName + " - " + variantName else groupName
  }

  /** The fields of a group that every one of its offers shares. */
  datatype GroupHeader = GroupHeader(supplierPk: nat, name: string, brand: string, category: string)

  /** The header of a reconstructed group; its name is empty when the group is skipped. */
  function HeaderOf(supplierPk: nat, gd: GroupData): GroupHeader {
    GroupHeader(supplierPk,
      Strip(Get(gd.fields, "grouping_name", "")),
      Strip(Get(gd.fields, "brand_name", "Unknown")),
      Strip(Get(gd.fields, "category_name", "Uncategorized")))
  }

  /**
    The unsaved offer of one variant, with the view's defaults; `None`
    when its price, quantity or shipping cost does not parse.
  */
  function VariantDraft(h: GroupHeader, v: map<string, string>, parsers: Parsers): (r: Option<Offer>)
    ensures r.Some? ==>
      && r.value.pk == 0 && r.value.supplier == h.supplierPk
      && r.value.brand == Some(h.brand) && r.value.category == Some(h.category)
  {
    var price := if GetOr(v, "price", "") != "" then parsers.decimal(v["price"]) else Some(0.0);
    var quantity := if GetOr(v, "quantity", "") != "" then parsers.integer(v["quantity"]) else Some(0);
    var shipping := if GetOr(v, "shipping_cost", "") != "" then parsers.decimal(v["shipping_cost"]) else Some(0.0);
    if price.None? || quantity.None? || shipping.None? then None
    else Some(Offer(
      pk := 0, supplier := h.supplierPk, brand := Some(h.brand), category := Some(h.category),
      name := FullName(h.name, Get(v, "name", "")),
      storage := GetOr(v, "storage", ""), condition := GetOr(v, "condition", "New"),
      specRegion := GetOr(v, "spec_region", ""), color := GetOr(v, "color", ""),
      quantity := quantity.value, price := Some(price.value), currency := GetOr(v, "currency", "USD"),
      shippingCost := Some(shipping.value), shippingCurrency := GetOr(v, "shipping_currency", "N/A"),
      code := ""))
  }

  /** The largest number of cents a `DecimalField(max_digits=10, decimal_places=2)` column holds, plus one. */
  const AMOUNT_LIMIT := 10_000_000_000

  /** An amount fits its decimal column when, rounded to cents, it has at most ten digits. */
  predicate FitsAmount(amount: Option<real>) {
    amount.None? || -AMOUNT_LIMIT < RoundCents(amount.value) < AMOUNT_LIMIT
  }

  /**
    Whether the database accepts a new offer row: `quantity` is a
    `PositiveIntegerField`, whose column is checked to be non-negative,
    and `price` and `shipping_cost` must fit their decimal columns.
  */
  predicate Storable(o: Offer) {
    o.quantity >= 0 && FitsAmount(o.price) && FitsAmount(o.shippingCost)
  }

  /** What `Offer.objects.create(...)` does with one variant. */
  datatype Creation =
    | Created(offer: Offer)  // the row is inserted
    | Raised                 // evaluating the arguments raised; nothing reached the database
    | Rejected               // the database refused the row and marked the transaction for rollback

  function Create(h: GroupHeader, v: map<string, string>, parsers: Parsers): Creation {
    match VariantDraft(h, v, parsers)
    case None => Raised
    case Some(o) => if Storable(o) then Created(o) else Rejected
  }

  /**
    `create` raises exactly when a posted number does not parse; otherwise
    it inserts the built offer unless the database refuses it, as it does
    for every posted quantity that parses to a negative number.
  */
  lemma CreateOutcome(h: GroupHeader, v: map<string, string>, parsers: Parsers)
    ensures Create(h, v, parsers).Raised? <==> VariantDraft(h, v, parsers).None?
    ensures Create(h, v, parsers).Created? ==>
      VariantDraft(h, v, parsers) == Some(Create(h, v, parsers).offer) && Storable(Create(h, v, parsers).offer)
    ensures GetOr(v, "quantity", "") != "" && parsers.integer(v["quantity"]).Some? && parsers.integer(v["quantity"]).value < 0 ==>
      !Create(h, v, parsers).Created?
  {
  }

  /**
    The offers built so far, whether building stopped on an exception, and
    whether that exception was the database refusing a row.
  */
  datatype Built = Built(drafts: seq<Offer>, failed: bool, refused: bool)

  /** `Offer.objects.create(...)` for the variants of one group. */
  function Builder(h: GroupHeader, parsers: Parsers): map<string, string> -> Creation {
    v => Create(h, v, parsers)
  }

  /** The offers of one group's variants, taken in `order`, up to the first one that fails. */
  function GroupDrafts(build: map<string, string> -> Creation, variants: map<nat, map<string, string>>, order: seq<nat>): Built
    requires forall i :: 0 <= i < |order| ==> order[i] in variants
  {
    if order == [] then Built([], false, false)
    else
      var prefix := GroupDrafts(build, variants, order[..|order| - 1]);
      if prefix.failed then prefix
      else match build(variants[order[|order| - 1]])
        case Raised => Built(prefix.drafts, true, false)
        case Rejected => Built(prefix.drafts, true, true)
        case Created(o) => Built(prefix.drafts + [o], false, false)
  }

  /** The offers of one reconstructed group; none when its stripped name is empty. */
  ghost function GroupBuilt(supplierPk: nat, gd: GroupData, parsers: Parsers): Built {
    var h := HeaderOf(supplierPk, gd);
    if h.name == "" then Built([], false, false)
    else GroupDrafts(Builder(h, parsers), gd.variants, SortedKeys(gd.variants.Keys))
  }

  ghost function GroupBuilder(supplierPk: nat, parsers: Parsers): GroupData -> Built {
    gd => GroupBuilt(supplierPk, gd, parsers)
  }

  /** The offers of the groups taken in `order`, up to the first one that fails. */
  function Drafts(groupBuilt: GroupData -> Built, data: Reconstruction, order: seq<nat>): Built
    requires forall i :: 0 <= i < |order| ==> order[i] in data
  {
    if order == [] then Built([], false, false)
    else
      var prefix := Drafts(groupBuilt, data, order[..|order| - 1]);
      if prefix.failed then prefix
      else
        var b := groupBuilt(data[order[|order| - 1]]);
        Built(prefix.drafts + b.drafts, b.failed, b.refused)
  }

  /** The offers the view builds from a reconstruction: groups and variants in ascending index order. */
  ghost function FormDrafts(supplierPk: nat, data: Reconstruction, parsers: Parsers): Built {
    Drafts(GroupBuilder(supplierPk, parsers), data, SortedKeys(data.Keys))
  }

  lemma {:induction false} GroupDraftsShape(build: map<string, string> -> Creation, variants: map<nat, map<string, string>>, order: seq<nat>)
    requires forall i :: 0 <= i < |order| ==> order[i] in variants
    ensures var b := GroupDrafts(build, variants, order);
      && |b.drafts| <= |order|
      && (!b.failed ==> |b.drafts| == |order|)
      && forall k :: 0 <= k < |b.drafts| ==> build(variants[order[k]]) == Created(b.drafts[k])
  {
    if order != [] {
      var init := order[..|order| - 1];
      GroupDraftsShape(build, variants, init);
    }
  }

  lemma {:induction false} DraftsFromGroups(groupBuilt: GroupData -> Built, data: Reconstruction, order: seq<nat>)
    requires forall i :: 0 <= i < |order| ==> order[i] in data
    ensures forall o :: o in Drafts(groupBuilt, data, order).drafts ==>
      exists i :: 0 <= i < |order| && o in groupBuilt(data[order[i]]).drafts
  {
    if order != [] {
      var init := order[..|order| - 1];
      DraftsFromGroups(groupBuilt, data, init);
      assert forall i :: 0 <= i < |init| ==> init[i] == order[i];
    }
  }

  lemma GroupBuiltShape(supplierPk: nat, gd: GroupData, parsers: Parsers)
    ensures forall o :: o in GroupBuilt(supplierPk, gd, parsers).drafts ==>
      o.pk == 0 && o.supplier == supplierPk && DraftOfGroup(o, HeaderOf(supplierPk, gd)) && Storable(o)
  {
    var h := HeaderOf(supplierPk, gd);
    if h.name != "" {
      var order := SortedKeys(gd.variants.Keys);
      var b := GroupDrafts(Builder(h, parsers), gd.variants, order);
      GroupDraftsShape(Builder(h, parsers), gd.variants, order);
      forall o | o in b.drafts
        ensures o.pk == 0 && o.supplier == supplierPk && DraftOfGroup(o, h) && Storable(o)
      {
        var k :| 0 <= k < |b.drafts| && b.drafts[k] == o;
        CreatedOfGroup(h, gd.variants[order[k]], parsers);
      }
    }
  }

  /** An offer created for a variant of a named group belongs to that group. */
  lemma CreatedOfGroup(h: GroupHeader, v: map<string, string>, parsers: Parsers)
    requires h.name != "" && Create(h, v, parsers).Created?
    ensures var o := Create(h, v, parsers).offer;
      o.pk == 0 && o.supplier == h.supplierPk && DraftOfGroup(o, h) && Storable(o)
  {
    FullNameStartsWithGroup(h.name, Get(v, "name", ""));
  }

  /**
    Each built offer belongs to a group with a non-blank name: its name
    starts with that name, it carries the group's brand and category, it
    is not saved yet, and the database accepts it.
  */
  lemma DraftsComeFromNamedGroups(supplierPk: nat, data: Reconstruction, parsers: Parsers)
    ensures forall o :: o in FormDrafts(supplierPk, data, parsers).drafts ==>
      && o.pk == 0 && o.supplier == supplierPk && Storable(o)
      && exists g :: g in data && DraftOfGroup(o, HeaderOf(supplierPk, data[g]))
  {
    var order := SortedKeys(data.Keys);
    DraftsFromGroups(GroupBuilder(supplierPk, parsers), data, order);
    forall o | o in FormDrafts(supplierPk, data, parsers).drafts
      ensures o.pk == 0 && o.supplier == supplierPk && Storable(o)
      ensures exists g :: g in data && DraftOfGroup(o, HeaderOf(supplierPk, data[g]))
    {
      var i :| 0 <= i < |order| && o in GroupBuilder(supplierPk, parsers)(data[order[i]]).drafts;
      GroupBuiltShape(supplierPk, data[order[i]], parsers);
    }
  }

  /** An offer built for a named group. */
  predicate DraftOfGroup(o: Offer, h: GroupHeader) {
    h.name != "" && StartsWith(o.name, h.name) && o.brand == Some(h.brand) && o.category == Some(h.category)
  }

  lemma FullNameStartsWithGroup(groupName: string, variantName: string)
    ensures StartsWith(FullName(groupName, variantName), groupName)
  {
    if variantName != "" {
      assert FullName(groupName, variantName)[..|groupName|] == groupName;
    }
  }

  /**
    The defaults of a built offer: a missing name gives the bare group
    name, a missing condition "New", a missing currency "USD", a missing
    shipping currency "N/A", missing numbers zero; a variant fails exactly
    when a number it carries does not parse.
  */
  lemma VariantDraftDefaults(h: GroupHeader, v: map<string, string>, parsers: Parsers)
    ensures VariantDraft(h, v, parsers).None? <==>
      || (GetOr(v, "price", "") != "" && parsers.decimal(v["price"]).None?)
      || (GetOr(v, "quantity", "") != "" && parsers.integer(v["quantity"]).None?)
      || (GetOr(v, "shipping_cost", "") != "" && parsers.decimal(v["shipping_cost"]).None?)
    ensures VariantDraft(h, v, parsers).Some? ==>
      var o := VariantDraft(h, v, parsers).value;
      && ("name" !in v ==> o.name == h.name)
      && ("condition" !in v ==> o.condition == "New")
      && ("currency" !in v ==> o.currency == "USD")
      && ("shipping_currency" !in v ==> o.shippingCurrency == "N/A")
      && ("price" !in v ==> o.price == Some(0.0))
      && ("quantity" !in v ==> o.quantity == 0)
      && ("shipping_cost" !in v ==> o.shippingCost == Some(0.0))
  {
  }

  // -----------------------------------------------------------------------
  // Saving

  /** The saved offers: the drafts with consecutive keys from `first` and their codes. */
  function Stamped(drafts: seq<Offer>, first: nat): (r: seq<Offer>)
    ensures |r| == |drafts|
  {
    if drafts == [] then []
    else
      var k := |drafts| - 1;
      Stamped(drafts[..k], first) + [drafts[k].(pk := first + k, code := OfferCode(first + k))]
  }

  /** The offer rows after saving `saved` in order. */
  function Stored(rows: map<nat, Offer>, saved: seq<Offer>): map<nat, Offer> {
    if saved == [] then rows
    else
      var last := saved[|saved| - 1];
      Stored(rows, saved[..|saved| - 1])[last.pk := last]
  }

  lemma {:induction false} StampedAppend(a: seq<Offer>, b: seq<Offer>, first: nat)
    ensures Stamped(a + b, first) == Stamped(a, first) + Stamped(b, first + |a|)
    decreases |b|
  {
    if b == [] {
      assert a + b == a;
    } else {
      var k := |b| - 1;
      assert (a + b)[..|a| + k] == a + b[..k];
      assert (a + b)[|a| + k] == b[k];
      StampedAppend(a, b[..k], first);
      Associative(Stamped(a, first), Stamped(b[..k], first + |a|), [b[k].(pk := first + |a| + k, code := OfferCode(first + |a| + k))]);
    }
  }

  lemma {:induction false} StoredAppend(rows: map<nat, Offer>, a: seq<Offer>, b: seq<Offer>)
    ensures Stored(rows, a + b) == Stored(Stored(rows, a), b)
    decreases |b|
  {
    if b != [] {
      assert (a + b)[..|a + b| - 1] == a + b[..|b| - 1];
      assert (a + b)[|a + b| - 1] == b[|b| - 1];
      StoredAppend(rows, a, b[..|b| - 1]);
    } else {
      assert a + b == a;
    }
  }

  /** Each saved offer is its draft under the key `first + k` and that key's code. */
  lemma {:induction false} StampedKeys(drafts: seq<Offer>, first: nat)
    ensures forall k :: 0 <= k < |drafts| ==>
      Stamped(drafts, first)[k] == drafts[k].(pk := first + k, code := OfferCode(first + k))
    decreases |drafts|
  {
    if drafts != [] {
      StampedKeys(drafts[..|drafts| - 1], first);
    }
  }

  /**
    Offers saved under consecutive fresh keys are in the table, and every
    row that was there before is still there unchanged.
  */
  lemma {:induction false} StoredKeepsAndAdds(rows: map<nat, Offer>, saved: seq<Offer>, first: nat)
    requires forall k :: k in rows ==> k < first
    requires forall k :: 0 <= k < |saved| ==> saved[k].pk == first + k
    ensures forall k :: 0 <= k < |saved| ==> saved[k].pk in Stored(rows, saved) && Stored(rows, saved)[saved[k].pk] == saved[k]
    ensures forall k :: k in rows ==> k in Stored(rows, saved) && Stored(rows, saved)[k] == rows[k]
    ensures forall k :: k in Stored(rows, saved) ==> k in rows || first <= k < first + |saved|
    decreases |saved|
  {
    if saved != [] {
      StoredKeepsAndAdds(rows, saved[..|saved| - 1], first);
    }
  }

  /** Once building has failed, later variants add nothing. */
  lemma {:induction false} GroupDraftsStayFailed(build: map<string, string> -> Creation, variants: map<nat, map<string, string>>, order: seq<nat>, i: nat)
    requires forall k :: 0 <= k < |order| ==> order[k] in variants
    requires i <= |order| && GroupDrafts(build, variants, order[..i]).failed
    ensures GroupDrafts(build, variants, order) == GroupDrafts(build, variants, order[..i])
    decreases |order| - i
  {
    if i < |order| {
      assert order[..i + 1][..i] == order[..i];
      GroupDraftsStayFailed(build, variants, order, i + 1);
    } else {
      assert order[..i] == order;
    }
  }

  lemma {:induction false} DraftsStayFailed(groupBuilt: GroupData -> Built, data: Reconstruction, order: seq<nat>, i: nat)
    requires forall k :: 0 <= k < |order| ==> order[k] in data
    requires i <= |order| && Drafts(groupBuilt, data, order[..i]).failed
    ensures Drafts(groupBuilt, data, order) == Drafts(groupBuilt, data, order[..i])
    decreases |order| - i
  {
    if i < |order| {
      assert order[..i + 1][..i] == order[..i];
      DraftsStayFailed(groupBuilt, data, order, i + 1);
    } else {
      assert order[..i] == order;
    }
  }

  /**
    The inner loop of the save views: create an offer for each variant of
    a group in ascending variant order, stopping at the first exception.
    Offers created before it stay in the transaction.
  */
  method SaveVariants(table: OfferTable, build: map<string, string> -> Creation, variants: map<nat, map<string, string>>)
    returns (saved: seq<Offer>, failed: bool, refused: bool)
    requires table.Valid()
    requires forall v :: build(v).Created? ==> build(v).offer.pk == 0
    modifies table
    ensures refused ==> failed
    ensures table.Valid()
    ensures var b := GroupDrafts(build, variants, SortedKeys(variants.Keys));
      saved == Stamped(b.drafts, old(table.nextPk)) && failed == b.failed && refused == b.refused
    ensures table.nextPk == old(table.nextPk) + |saved|
    ensures table.rows == Stored(old(table.rows), saved)
  {
    var order := SortKeys(variants.Keys);
    saved, failed, refused := SaveVariantsInOrder(table, build, variants, order);
  }

  /** The inner loop over the variant indices `order`. */
  method SaveVariantsInOrder(table: OfferTable, build: map<string, string> -> Creation, variants: map<nat, map<string, string>>,
                             order: seq<nat>)
    returns (saved: seq<Offer>, failed: bool, refused: bool)
    requires table.Valid()
    requires forall v :: build(v).Created? ==> build(v).offer.pk == 0
    requires forall k :: 0 <= k < |order| ==> order[k] in variants
    modifies table
    ensures refused ==> failed
    ensures table.Valid()
    ensures saved == Stamped(GroupDrafts(build, variants, order).drafts, old(table.nextPk))
    ensures failed == GroupDrafts(build, variants, order).failed
    ensures refused == GroupDrafts(build, variants, order).refused
    ensures table.nextPk == old(table.nextPk) + |saved|
    ensures table.rows == Stored(old(table.rows), saved)
  {
    ghost var first, rows := table.nextPk, table.rows;
    saved := [];
    failed, refused := false, false;
    var i := 0;
    while i < |order| && !failed
      invariant i <= |order|
      invariant GroupDrafts(build, variants, order[..i]).failed == failed
      invariant GroupDrafts(build, variants, order[..i]).refused == refused
      invariant refused ==> failed
      invariant saved == Stamped(GroupDrafts(build, variants, order[..i]).drafts, first)
      invariant table.Valid()
      invariant table.nextPk == first + |saved|
      invariant table.rows == Stored(rows, saved)
    {
      saved, failed, refused := SaveNextVariant(table, build, variants, order, i, first, rows, saved);
      i := i + 1;
    }
    if failed {
      GroupDraftsStayFailed(build, variants, order, i);
    } else {
      assert order[..i] == order;
    }
  }

  /** The body of the inner loop, for the variant `order[i]`. */
  method SaveNextVariant(table: OfferTable, build: map<string, string> -> Creation, variants: map<nat, map<string, string>>,
                         order: seq<nat>, i: nat, ghost first: nat, ghost rows: map<nat, Offer>, saved: seq<Offer>)
    returns (savedAfter: seq<Offer>, failed: bool, refused: bool)
    requires forall v :: build(v).Created? ==> build(v).offer.pk == 0
    requires forall k :: 0 <= k < |order| ==> order[k] in variants
    requires i < |order| && !GroupDrafts(build, variants, order[..i]).failed
    requires saved == Stamped(GroupDrafts(build, variants, order[..i]).drafts, first)
    requires table.Valid() && table.nextPk == first + |saved| && table.rows == Stored(rows, saved)
    modifies table
    ensures refused ==> failed
    ensures failed == GroupDrafts(build, variants, order[..i + 1]).failed
    ensures refused == GroupDrafts(build, variants, order[..i + 1]).refused
    ensures savedAfter == Stamped(GroupDrafts(build, variants, order[..i + 1]).drafts, first)
    ensures table.Valid() && table.nextPk == first + |savedAfter| && table.rows == Stored(rows, savedAfter)
  {
    ghost var before := GroupDrafts(build, variants, order[..i]).drafts;
    GroupDraftsStep(build, variants, order, i);
    var made := build(variants[order[i]]);
    if !made.Created? {
      return saved, true, made.Rejected?;
    }
    var o := table.Save(made.offer);
    SavedOneMore(before, made.offer, saved, o, first, rows, table.rows);
    savedAfter, failed, refused := saved + [o], false, false;
  }

  lemma GroupDraftsStep(build: map<string, string> -> Creation, variants: map<nat, map<string, string>>, order: seq<nat>, i: nat)
    requires forall k :: 0 <= k < |order| ==> order[k] in variants
    requires i < |order| && !GroupDrafts(build, variants, order[..i]).failed
    ensures var before := GroupDrafts(build, variants, order[..i]).drafts;
      GroupDrafts(build, variants, order[..i + 1]) ==
        match build(variants[order[i]])
        case Raised => Built(before, true, false)
        case Rejected => Built(before, true, true)
        case Created(o) => Built(before + [o], false, false)
  {
    assert order[..i + 1][..i] == order[..i];
  }

  /** The bookkeeping of one pass of the inner loop, on values. */
  lemma SavedOneMore(before: seq<Offer>, d: Offer, saved: seq<Offer>, o: Offer, first: nat,
                     rows: map<nat, Offer>, finalRows: map<nat, Offer>)
    requires saved == Stamped(before, first)
    requires o == d.(pk := first + |saved|, code := OfferCode(first + |saved|))
    requires finalRows == Stored(rows, saved)[o.pk := o]
    ensures saved + [o] == Stamped(before + [d], first)
    ensures finalRows == Stored(rows, saved + [o])
  {
    StampedSnoc(before, d, first);
    StoredSnoc(rows, saved, o);
  }

  lemma StampedSnoc(drafts: seq<Offer>, d: Offer, first: nat)
    ensures Stamped(drafts + [d], first) ==
      Stamped(drafts, first) + [d.(pk := first + |drafts|, code := OfferCode(first + |drafts|))]
  {
    assert (drafts + [d])[..|drafts|] == drafts;
  }

  lemma StoredSnoc(rows: map<nat, Offer>, saved: seq<Offer>, o: Offer)
    ensures Stored(rows, saved + [o]) == Stored(rows, saved)[o.pk := o]
  {
    assert (saved + [o])[..|saved|] == saved;
  }

  /**
    The outer loop of the save views: the groups in ascending index order,
    skipping those whose stripped name is empty, until the first exception.
    The rows describe the open transaction; whether it commits is up to
    the view.
  */
  method SaveDrafts(table: OfferTable, supplierPk: nat, data: Reconstruction, parsers: Parsers)
    returns (saved: seq<Offer>, failed: bool, refused: bool)
    requires table.Valid()
    modifies table
    ensures refused ==> failed
    ensures table.Valid()
    ensures var b := FormDrafts(supplierPk, data, parsers);
      saved == Stamped(b.drafts, old(table.nextPk)) && failed == b.failed && refused == b.refused
    ensures table.nextPk == old(table.nextPk) + |saved|
    ensures table.rows == Stored(old(table.rows), saved)
  {
    var order := SortKeys(data.Keys);
    saved, failed, refused := SaveGroupsInOrder(table, supplierPk, data, order, parsers);
  }

  /** The outer loop over the group indices `order`. */
  method SaveGroupsInOrder(table: OfferTable, supplierPk: nat, data: Reconstruction, order: seq<nat>, parsers: Parsers)
    returns (saved: seq<Offer>, failed: bool, refused: bool)
    requires table.Valid()
    requires forall k :: 0 <= k < |order| ==> order[k] in data
    modifies table
    ensures refused ==> failed
    ensures table.Valid()
    ensures saved == Stamped(Drafts(GroupBuilder(supplierPk, parsers), data, order).drafts, old(table.nextPk))
    ensures failed == Drafts(GroupBuilder(supplierPk, parsers), data, order).failed
    ensures refused == Drafts(GroupBuilder(supplierPk, parsers), data, order).refused
    ensures table.nextPk == old(table.nextPk) + |saved|
    ensures table.rows == Stored(old(table.rows), saved)
  {
    ghost var first, rows := table.nextPk, table.rows;
    ghost var groupBuilt := GroupBuilder(supplierPk, parsers);
    saved := [];
    failed, refused := false, false;
    var i := 0;
    while i < |order| && !failed
      invariant i <= |order|
      invariant failed == Drafts(groupBuilt, data, order[..i]).failed
      invariant refused == Drafts(groupBuilt, data, order[..i]).refused
      invariant refused ==> failed
      invariant saved == Stamped(Drafts(groupBuilt, data, order[..i]).drafts, first)
      invariant table.Valid()
      invariant table.nextPk == first + |saved|
      invariant table.rows == Stored(rows, saved)
    {
      saved, failed, refused := SaveNextGroup(table, supplierPk, data, order, i, parsers, first, rows, saved);
      i := i + 1;
    }
    if failed {
      DraftsStayFailed(groupBuilt, data, order, i);
    } else {
      assert order[..i] == order;
    }
  }

  /** The body of the outer loop, for the group `order[i]`. */
  method SaveNextGroup(table: OfferTable, supplierPk: nat, data: Reconstruction, order: seq<nat>, i: nat,
                       parsers: Parsers, ghost first: nat, ghost rows: map<nat, Offer>, saved: seq<Offer>)
    returns (savedAfter: seq<Offer>, failed: bool, refused: bool)
    requires forall k :: 0 <= k < |order| ==> order[k] in data
    requires i < |order|
    requires !Drafts(GroupBuilder(supplierPk, parsers), data, order[..i]).failed
    requires saved == Stamped(Drafts(GroupBuilder(supplierPk, parsers), data, order[..i]).drafts, first)
    requires table.Valid() && table.nextPk == first + |saved| && table.rows == Stored(rows, saved)
    modifies table
    ensures refused ==> failed
    ensures failed == Drafts(GroupBuilder(supplierPk, parsers), data, order[..i + 1]).failed
    ensures refused == Drafts(GroupBuilder(supplierPk, parsers), data, order[..i + 1]).refused
    ensures savedAfter == Stamped(Drafts(GroupBuilder(supplierPk, parsers), data, order[..i + 1]).drafts, first)
    ensures table.Valid() && table.nextPk == first + |savedAfter| && table.rows == Stored(rows, savedAfter)
  {
    ghost var groupBuilt := GroupBuilder(supplierPk, parsers);
    ghost var before := Drafts(groupBuilt, data, order[..i]);
    ghost var after := Drafts(groupBuilt, data, order[..i + 1]);
    ghost var b := GroupBuilt(supplierPk, data[order[i]], parsers);
    assert groupBuilt(data[order[i]]) == b;
    DraftsStep(groupBuilt, data, order, i);
    ghost var midPk := table.nextPk;
    var more;
    more, failed, refused := SaveGroup(table, supplierPk, data[order[i]], parsers);
    SavedStep(before.drafts, b, after, saved, more, first, rows, table.rows, table.nextPk);
    savedAfter := saved + more;
  }

  /** The bookkeeping of one pass of the outer loop, on values. */
  lemma SavedStep(before: seq<Offer>, b: Built, after: Built, saved: seq<Offer>, more: seq<Offer>,
                  first: nat, rows: map<nat, Offer>, finalRows: map<nat, Offer>, finalPk: nat)
    requires saved == Stamped(before, first)
    requires more == Stamped(b.drafts, first + |saved|)
    requires after.drafts == before + b.drafts
    requires finalRows == Stored(Stored(rows, saved), more)
    requires finalPk == first + |saved| + |more|
    ensures saved + more == Stamped(after.drafts, first)
    ensures finalRows == Stored(rows, saved + more)
    ensures finalPk == first + |saved + more|
  {
    StampedAppend(before, b.drafts, first);
    StoredAppend(rows, saved, more);
  }

  /** One pass of the outer loop: a group with a blank name is skipped. */
  method SaveGroup(table: OfferTable, supplierPk: nat, gd: GroupData, parsers: Parsers)
    returns (saved: seq<Offer>, failed: bool, refused: bool)
    requires table.Valid()
    modifies table
    ensures refused ==> failed
    ensures table.Valid()
    ensures var b := GroupBuilt(supplierPk, gd, parsers);
      saved == Stamped(b.drafts, old(table.nextPk)) && failed == b.failed && refused == b.refused
    ensures table.nextPk == old(table.nextPk) + |saved|
    ensures table.rows == Stored(old(table.rows), saved)
  {
    var h := HeaderOf(supplierPk, gd);
    if h.name == "" {
      return [], false, false;
    }
    BuilderUnsaved(h, parsers);
    saved, failed, refused := SaveVariants(table, Builder(h, parsers), gd.variants);
  }

  lemma DraftsStep(groupBuilt: GroupData -> Built, data: Reconstruction, order: seq<nat>, i: nat)
    requires forall k :: 0 <= k < |order| ==> order[k] in data
    requires i < |order| && !Drafts(groupBuilt, data, order[..i]).failed
    ensures Drafts(groupBuilt, data, order[..i + 1]).failed == groupBuilt(data[order[i]]).failed
    ensures Drafts(groupBuilt, data, order[..i + 1]).refused == groupBuilt(data[order[i]]).refused
    ensures Drafts(groupBuilt, data, order[..i + 1]).drafts ==
      Drafts(groupBuilt, data, order[..i]).drafts + groupBuilt(data[order[i]]).drafts
  {
    assert order[..i + 1][..i] == order[..i];
  }

  /** Every offer the view builds is unsaved. */
  lemma BuilderUnsaved(h: GroupHeader, parsers: Parsers)
    ensures forall v :: Builder(h, parsers)(v).Created? ==> Builder(h, parsers)(v).offer.pk == 0
  {
  }

  /**
    The evidently intended save of a view marked atomic: when building an
    offer fails, the table is left as it was.
  */
  method SaveDraftsAtomically(table: OfferTable, supplierPk: nat, data: Reconstruction, parsers: Parsers)
    returns (saved: seq<Offer>, failed: bool)
    requires table.Valid()
    modifies table
    ensures table.Valid()
    ensures failed == FormDrafts(supplierPk, data, parsers).failed
    ensures failed ==> saved == [] && table.rows == old(table.rows) && table.nextPk == old(table.nextPk)
    ensures !failed ==>
      && saved == Stamped(FormDrafts(supplierPk, data, parsers).drafts, old(table.nextPk))
      && table.rows == Stored(old(table.rows), saved)
  {
    var rows, nextPk := table.rows, table.nextPk;
    var refused;
    saved, failed, refused := SaveDrafts(table, supplierPk, data, parsers);
    if failed {
      table.rows, table.nextPk := rows, nextPk;
      saved := [];
    }
  }

  // -----------------------------------------------------------------------
  // The save flows

  /** What a save view ends with. */
  datatype SaveOutcome =
    | NothingToSave                                  // no field with a value was posted
    | FeesMissing(report: seq<MissingFee>)           // the page is shown again with the report
    | Failed(saved: seq<Offer>)                      // an exception raised in Python; `saved` stays in the table
    | RolledBack                                     // the database refused an offer; the request is undone
    | NoOffers                                       // every group was skipped
    | Scheduled(saved: seq<Offer>, completed: bool)  // saved, then distributed after the commit

  /**
    `save_and_distribute_view`: reconstruct the form, refuse to save while
    an active external subscriber lacks a fee for a posted device name,
    save the offers, and distribute them to the active subscribers once
    the transaction commits. A row the database refuses rolls the whole
    request back, although the view catches the exception. `supplier` is the result of the supplier
    lookup (`None` when no id is posted or no such supplier exists).
  */
  method SaveAndDistribute(table: OfferTable, gw: Gateway, rates: RateTable, items: seq<(string, string)>,
                           subscribers: seq<Subscriber>, supplier: Option<Supplier>, parsers: Parsers)
    returns (outcome: SaveOutcome)
    requires table.Valid()
    modifies table, gw
    ensures table.Valid()
    ensures var data := Reconstructed(items);
      var report := MissingReport(DeviceNames(items), subscribers);
      && (data == map[] ==> outcome == NothingToSave)
      && (data != map[] && report != [] ==> outcome == FeesMissing(report))
      && (data != map[] && report == [] && supplier.None? ==> outcome == Failed([]))
      && (data == map[] || report != [] || supplier.None? ==>
            table.rows == old(table.rows) && gw.posts == old(gw.posts))
    ensures Reconstructed(items) != map[] && MissingReport(DeviceNames(items), subscribers) == [] && supplier.Some? ==>
      var b := FormDrafts(supplier.value.pk, Reconstructed(items), parsers);
      var saved := Stamped(b.drafts, old(table.nextPk));
      && (b.refused ==> outcome == RolledBack && table.rows == old(table.rows) && gw.posts == old(gw.posts))
      && (!b.refused ==> table.rows == Stored(old(table.rows), saved))
      && (b.failed && !b.refused ==> outcome == Failed(saved) && gw.posts == old(gw.posts))
      && (!b.failed && saved == [] ==> outcome == NoOffers && gw.posts == old(gw.posts))
      && (!b.failed && saved != [] ==>
            var run := RunOver(rates, saved, supplier.value.code, Recipients(None, subscribers));
            && outcome == Scheduled(saved, !run.aborted)
            && gw.posts == old(gw.posts) + PostsOf(gw.configured, run.sends))
  {
    var data, deviceNames := ReconstructForm(items);
    if data == map[] {
      return NothingToSave;
    }
    var report := CollectMissingFees(deviceNames, subscribers);
    if report != [] {
      return FeesMissing(report);
    }
    if supplier.None? {
      return Failed([]);
    }
    var rows, nextPk := table.rows, table.nextPk;
    var saved, failed, refused := SaveDrafts(table, supplier.value.pk, data, parsers);
    if refused {
      // leaving the atomic view rolls back every insert of the request
      table.rows, table.nextPk := rows, nextPk;
      outcome := RolledBack;
    } else if failed {
      outcome := Failed(saved);
    } else if saved == [] {
      outcome := NoOffers;
    } else {
      var completed := Distribute(gw, rates, saved, supplier.value, None, subscribers);
      outcome := Scheduled(saved, completed);
    }
  }

  /**
    `save_and_send_to_single_view`: the same without the fee check, and the
    offers go to the one chosen subscriber. `subscriber` is the result of
    the subscriber lookup.
  */
  method SaveAndSendToSingle(table: OfferTable, gw: Gateway, rates: RateTable, items: seq<(string, string)>,
                             supplier: Option<Supplier>, subscriber: Option<Subscriber>, parsers: Parsers)
    returns (outcome: SaveOutcome)
    requires table.Valid()
    modifies table, gw
    ensures table.Valid()
    ensures var data := Reconstructed(items);
      && (data == map[] ==> outcome == NothingToSave)
      && (data != map[] && (supplier.None? || subscriber.None?) ==> outcome == Failed([]))
      && (data == map[] || supplier.None? || subscriber.None? ==>
            table.rows == old(table.rows) && gw.posts == old(gw.posts))
    ensures Reconstructed(items) != map[] && supplier.Some? && subscriber.Some? ==>
      var b := FormDrafts(supplier.value.pk, Reconstructed(items), parsers);
      var saved := Stamped(b.drafts, old(table.nextPk));
      && (b.refused ==> outcome == RolledBack && table.rows == old(table.rows) && gw.posts == old(gw.posts))
      && (!b.refused ==> table.rows == Stored(old(table.rows), saved))
      && (b.failed && !b.refused ==> outcome == Failed(saved) && gw.posts == old(gw.posts))
      && (!b.failed && saved == [] ==> outcome == NoOffers && gw.posts == old(gw.posts))
      && (!b.failed && saved != [] ==>
            var run := RunOver(rates, saved, supplier.value.code, [subscriber.value]);
            && outcome == Scheduled(saved, !run.aborted)
            && gw.posts == old(gw.posts) + PostsOf(gw.configured, run.sends))
  {
    var data, _ := ReconstructForm(items);
    if data == map[] {
      return NothingToSave;
    }
    if supplier.None? || subscriber.None? {
      return Failed([]);
    }
    var rows, nextPk := table.rows, table.nextPk;
    var saved, failed, refused := SaveDrafts(table, supplier.value.pk, data, parsers);
    if refused {
      // leaving the atomic view rolls back every insert of the request
      table.rows, table.nextPk := rows, nextPk;
      outcome := RolledBack;
    } else if failed {
      outcome := Failed(saved);
    } else if saved == [] {
      outcome := NoOffers;
    } else {
      var completed := Distribute(gw, rates, saved, supplier.value, subscriber, []);
      outcome := Scheduled(saved, completed);
    }
  }
}
