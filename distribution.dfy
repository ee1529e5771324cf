/**
  The distribution engine (`DistributionEngine`): each subscriber's
  preferences select the offers they see, and every subscriber left with
  at least one offer gets one personalised message.
*/
module Distribution {
  import opened Wrappers
  import opened Models
  import opened Rates
  import opened Pricing
  import opened Notification

  // -----------------------------------------------------------------------
  // Preference filtering

  /** The preference has no allow-list at all: the subscriber wants everything. */
  predicate Unrestricted(pref: Preference) {
    pref.allowedSuppliers == {} && pref.interestedBrands == {} && pref.interestedCategories == {}
  }

  /**
    An offer passes the three checks: each non-empty allow-list must hold
    the offer's supplier, brand or category; an offer without a brand (or
    category) fails a non-empty brand (or category) list.
  */
  predicate Admits(pref: Preference, offer: Offer) {
    && (pref.allowedSuppliers == {} || offer.supplier in pref.allowedSuppliers)
    && (pref.interestedBrands == {} || (offer.brand.Some? && offer.brand.value in pref.interestedBrands))
    && (pref.interestedCategories == {} || (offer.category.Some? && offer.category.value in pref.interestedCategories))
  }

  /** The offers that pass, in their original order. */
  function Filter(pref: Preference, offers: seq<Offer>): seq<Offer> {
    if offers == [] then []
    else
      var last := offers[|offers| - 1];
      Filter(pref, offers[..|offers| - 1]) + (if Admits(pref, last) then [last] else [])
  }

  /**
    The offers one subscriber is sent: all of them without a preference
    record or with an unrestricted one, otherwise the filtered list.
  */
  function OffersFor(sub: Subscriber, offers: seq<Offer>): seq<Offer> {
    match sub.preferences
    case None => offers
    case Some(pref) => if Unrestricted(pref) then offers else Filter(pref, offers)
  }

  /** `_filter_offers_for_subscriber` */
  method FilterOffersForSubscriber(offers: seq<Offer>, sub: Subscriber) returns (filtered: seq<Offer>)
    ensures filtered == OffersFor(sub, offers)
  {
    if sub.preferences.None? {
      return offers;
    }
    var pref := sub.preferences.value;
    if pref.allowedSuppliers == {} && pref.interestedBrands == {} && pref.interestedCategories == {} {
      return offers;
    }
    filtered := [];
    for i := 0 to |offers|
      invariant filtered == Filter(pref, offers[..i])
    {
      var offer := offers[i];
      assert offers[..i + 1][..i] == offers[..i];
      if pref.allowedSuppliers != {} && offer.supplier !in pref.allowedSuppliers {
        continue;
      }
      if pref.interestedBrands != {} && (offer.brand.None? || offer.brand.value !in pref.interestedBrands) {
        continue;
      }
      if pref.interestedCategories != {} && (offer.category.None? || offer.category.value !in pref.interestedCategories) {
        continue;
      }
      filtered := filtered + [offer];
    }
    assert offers[..|offers|] == offers;
  }

  /** An offer is kept exactly when it is one of the offers and passes the checks. */
  lemma {:induction false} FilterMembership(pref: Preference, offers: seq<Offer>, offer: Offer)
    ensures offer in Filter(pref, offers) <==> offer in offers && Admits(pref, offer)
  {
    if offers != [] {
      var init := offers[..|offers| - 1];
      FilterMembership(pref, init, offer);
      assert offers == init + [offers[|offers| - 1]];
    }
  }

  /** Filtering keeps the order: the filter of a concatenation is the concatenation of the filters. */
  lemma {:induction false} FilterDistributes(pref: Preference, a: seq<Offer>, b: seq<Offer>)
    ensures Filter(pref, a + b) == Filter(pref, a) + Filter(pref, b)
  {
    if b != [] {
      var initB := b[..|b| - 1];
      FilterDistributes(pref, a, initB);
      assert (a + b)[..|a + b| - 1] == a + initB;
    } else {
      assert a + b == a;
    }
  }

  /** An unrestricted preference admits every offer, so the early return agrees with the loop. */
  lemma {:induction false} UnrestrictedKeepsAll(pref: Preference, offers: seq<Offer>)
    requires Unrestricted(pref)
    ensures Filter(pref, offers) == offers
  {
    if offers != [] {
      UnrestrictedKeepsAll(pref, offers[..|offers| - 1]);
      assert offers == offers[..|offers| - 1] + [offers[|offers| - 1]];
    }
  }

  /**
    What a subscriber is sent is a selection of the offers: every offer
    sent is one of them and passes the subscriber's preference, if any,
    and every such offer is sent.
  */
  lemma OffersForMembership(sub: Subscriber, offers: seq<Offer>, offer: Offer)
    ensures offer in OffersFor(sub, offers) <==>
      offer in offers && (sub.preferences.None? || Admits(sub.preferences.value, offer))
  {
    if sub.preferences.Some? {
      var pref := sub.preferences.value;
      FilterMembership(pref, offers, offer);
    }
  }

  // -----------------------------------------------------------------------
  // Distribution

  /** The active subscribers, in their stored order. */
  function Active(subs: seq<Subscriber>): (r: seq<Subscriber>)
    ensures forall s :: s in r ==> s in subs && s.isActive
  {
    if subs == [] then []
    else
      var last := subs[|subs| - 1];
      Active(subs[..|subs| - 1]) + (if last.isActive then [last] else [])
  }

  /** The one subscriber named by the caller (active or not), otherwise every active one. */
  function Recipients(single: Option<Subscriber>, all: seq<Subscriber>): seq<Subscriber> {
    match single
    case Some(sub) => [sub]
    case None => Active(all)
  }

  /**
    The outcome of a distribution run: the (number, message) pairs handed
    to the sender, in order, and whether the run was cut short by a message
    that could not be built.
  */
  datatype Run = Run(sends: seq<(string, string)>, aborted: bool)

  /**
    What one recipient's turn hands to the sender: nothing when no offer is
    left for them, else one message to their number; None when the message
    cannot be built.
  */
  function TurnSends(rates: RateTable, offers: seq<Offer>, supplierCode: string, sub: Subscriber): Option<seq<(string, string)>> {
    var selected := OffersFor(sub, offers);
    if selected == [] then Some([])
    else
      match OfferMessage(EnginePrice(rates, sub), sub, selected, supplierCode)
      case None => None
      case Some(message) => Some([(sub.whatsappNumber, message)])
  }

  /** The run over a list of recipients; an aborted run ignores the rest. */
  function RunOver(rates: RateTable, offers: seq<Offer>, supplierCode: string, subs: seq<Subscriber>): Run {
    if subs == [] then Run([], false)
    else
      var run := RunOver(rates, offers, supplierCode, subs[..|subs| - 1]);
      if run.aborted then run
      else
        match TurnSends(rates, offers, supplierCode, subs[|subs| - 1])
        case None => Run(run.sends, true)
        case Some(sends) => Run(run.sends + sends, false)
  }

  /** The requests the gateway posts for a list of sends. */
  function PostsOf(configured: bool, sends: seq<(string, string)>): seq<(string, string)> {
    if sends == [] then []
    else
      var last := sends[|sends| - 1];
      PostsOf(configured, sends[..|sends| - 1]) + PostsFor(configured, last.0, last.1)
  }

  /** Posting two batches of sends posts the first batch's requests, then the second's. */
  lemma {:induction false} PostsOfAppend(configured: bool, a: seq<(string, string)>, b: seq<(string, string)>)
    ensures PostsOf(configured, a + b) == PostsOf(configured, a) + PostsOf(configured, b)
  {
    if b != [] {
      PostsOfAppend(configured, a, b[..|b| - 1]);
      assert (a + b)[..|a + b| - 1] == a + b[..|b| - 1];
    } else {
      assert a + b == a;
    }
  }

  /** One recipient's turn of `distribute`: filter, and when offers are left, build and send. */
  method Serve(gw: Gateway, rates: RateTable, savedOffers: seq<Offer>, supplier: Supplier, sub: Subscriber)
    returns (ok: bool)
    modifies gw
    ensures ok == TurnSends(rates, savedOffers, supplier.code, sub).Some?
    ensures ok ==> gw.posts == old(gw.posts) + PostsOf(gw.configured, TurnSends(rates, savedOffers, supplier.code, sub).value)
    ensures !ok ==> gw.posts == old(gw.posts)
  {
    var filtered := FilterOffersForSubscriber(savedOffers, sub);
    if filtered != [] {
      var message := BuildOfferMessage(rates, sub, filtered, supplier);
      if message.None? {
        return false;
      }
      var _ := gw.SendWhatsappMessage(sub.whatsappNumber, message.value);
      assert [(sub.whatsappNumber, message.value)][..0] == [];
    }
    return true;
  }

  /**
    `distribute`: for each recipient, filter the offers, and when some are
    left build the message and send it. Building fails (`KeyError`) when a
    price cannot be computed; the run then stops, reported as
    `completed == false`, and only the recipients served before it have
    been sent their messages.
  */
  method Distribute(gw: Gateway, rates: RateTable, savedOffers: seq<Offer>, supplier: Supplier,
                    single: Option<Subscriber>, all: seq<Subscriber>)
    returns (completed: bool)
    modifies gw
    ensures var run := RunOver(rates, savedOffers, supplier.code, Recipients(single, all));
      && completed == !run.aborted
      && gw.posts == old(gw.posts) + PostsOf(gw.configured, run.sends)
  {
    var subscribers := if single.Some? then [single.value] else Active(all);
    completed := ServeAll(gw, rates, savedOffers, supplier, subscribers);
  }

  /** The loop of `distribute` over the chosen recipients. */
  method ServeAll(gw: Gateway, rates: RateTable, savedOffers: seq<Offer>, supplier: Supplier, subscribers: seq<Subscriber>)
    returns (completed: bool)
    modifies gw
    ensures var run := RunOver(rates, savedOffers, supplier.code, subscribers);
      && completed == !run.aborted
      && gw.posts == old(gw.posts) + PostsOf(gw.configured, run.sends)
  {
    for i := 0 to |subscribers|
      invariant !RunOver(rates, savedOffers, supplier.code, subscribers[..i]).aborted
      invariant gw.posts == old(gw.posts) + PostsOf(gw.configured, RunOver(rates, savedOffers, supplier.code, subscribers[..i]).sends)
    {
      ghost var before := RunOver(rates, savedOffers, supplier.code, subscribers[..i]).sends;
      ghost var posted := gw.posts;
      RunStep(rates, savedOffers, supplier.code, subscribers, i);
      var ok := Serve(gw, rates, savedOffers, supplier, subscribers[i]);
      if !ok {
        assert subscribers[..i + 1][..i] == subscribers[..i];
        assert RunOver(rates, savedOffers, supplier.code, subscribers[..i + 1]).sends == before;
        RunStaysAborted(rates, savedOffers, supplier.code, subscribers, i + 1);
        assert subscribers[..|subscribers|] == subscribers;
        return false;
      }
      PostedStep(gw.configured, old(gw.posts), before, posted,
                 TurnSends(rates, savedOffers, supplier.code, subscribers[i]).value, gw.posts);
    }
    assert subscribers[..|subscribers|] == subscribers;
    completed := true;
  }

  /** Posting one more turn's sends extends the posts of the run so far. */
  lemma PostedStep(configured: bool, base: seq<(string, string)>, before: seq<(string, string)>,
                   posted: seq<(string, string)>, turn: seq<(string, string)>, now: seq<(string, string)>)
    requires posted == base + PostsOf(configured, before)
    requires now == posted + PostsOf(configured, turn)
    ensures now == base + PostsOf(configured, before + turn)
  {
    PostsOfAppend(configured, before, turn);
    Associative(base, PostsOf(configured, before), PostsOf(configured, turn));
  }

  lemma Associative<T>(a: seq<T>, b: seq<T>, c: seq<T>)
    ensures (a + b) + c == a + (b + c)
  {
  }

  /** One more recipient: their turn's sends are appended, or the run is aborted. */
  lemma RunStep(rates: RateTable, offers: seq<Offer>, supplierCode: string, subs: seq<Subscriber>, i: nat)
    requires i < |subs| && !RunOver(rates, offers, supplierCode, subs[..i]).aborted
    ensures TurnSends(rates, offers, supplierCode, subs[i]).None? ==> RunOver(rates, offers, supplierCode, subs[..i + 1]).aborted
    ensures TurnSends(rates, offers, supplierCode, subs[i]).Some? ==>
      RunOver(rates, offers, supplierCode, subs[..i + 1]) ==
        Run(RunOver(rates, offers, supplierCode, subs[..i]).sends + TurnSends(rates, offers, supplierCode, subs[i]).value, false)
  {
    assert subs[..i + 1][..i] == subs[..i];
  }

  /** Once a prefix of the recipients aborts the run, the whole run is aborted. */
  lemma {:induction false} RunStaysAborted(rates: RateTable, offers: seq<Offer>, supplierCode: string, subs: seq<Subscriber>, k: nat)
    requires k <= |subs| && RunOver(rates, offers, supplierCode, subs[..k]).aborted
    ensures RunOver(rates, offers, supplierCode, subs).aborted
    ensures RunOver(rates, offers, supplierCode, subs) == RunOver(rates, offers, supplierCode, subs[..k])
    decreases |subs| - k
  {
    if k < |subs| {
      assert subs[..k + 1][..k] == subs[..k];
      RunStaysAborted(rates, offers, supplierCode, subs, k + 1);
    } else {
      assert subs[..k] == subs;
    }
  }

  // -----------------------------------------------------------------------
  // What a run does

  /** Some offer selected for the subscriber cannot be priced for them. */
  predicate PricingFails(rates: RateTable, offers: seq<Offer>, sub: Subscriber) {
    HasUnpriced(EnginePrice(rates, sub), OffersFor(sub, offers))
  }

  /** Pricing fails for a subscriber exactly when one of their selected offers has an error price. */
  lemma PricingFailsMeans(rates: RateTable, offers: seq<Offer>, sub: Subscriber)
    ensures PricingFails(rates, offers, sub) <==>
      exists o :: o in OffersFor(sub, offers) && FinalPrice(rates, o, sub).PriceError?
  {
    var selected := OffersFor(sub, offers);
    HasUnpricedIff(EnginePrice(rates, sub), selected);
    if exists o :: o in selected && FinalPrice(rates, o, sub).PriceError? {
      var o :| o in selected && FinalPrice(rates, o, sub).PriceError?;
      var j :| 0 <= j < |selected| && selected[j] == o;
      assert EnginePrice(rates, sub)(selected[j]).PriceError?;
    }
    if PricingFails(rates, offers, sub) {
      var j :| 0 <= j < |selected| && EnginePrice(rates, sub)(selected[j]).PriceError?;
      assert selected[j] in selected;
    }
  }

  /** A recipient's turn fails exactly when pricing fails for them. */
  lemma TurnFailsIffPricingFails(rates: RateTable, offers: seq<Offer>, supplierCode: string, sub: Subscriber)
    ensures TurnSends(rates, offers, supplierCode, sub).None? <==> PricingFails(rates, offers, sub)
  {
    MessageFailsIffSomePriceFails(EnginePrice(rates, sub), sub, OffersFor(sub, offers), supplierCode);
  }

  /** The recipients that are left with at least one offer, in order. */
  function Interested(offers: seq<Offer>, subs: seq<Subscriber>): (r: seq<Subscriber>)
    ensures forall s :: s in r ==> s in subs && OffersFor(s, offers) != []
  {
    if subs == [] then []
    else
      var last := subs[|subs| - 1];
      Interested(offers, subs[..|subs| - 1]) + (if OffersFor(last, offers) != [] then [last] else [])
  }

  /**
    When no recipient's pricing fails, the run completes and sends exactly
    one message to each interested recipient, in order, built from that
    recipient's own selection.
  */
  lemma {:induction false} RunSendsToInterested(rates: RateTable, offers: seq<Offer>, supplierCode: string, subs: seq<Subscriber>)
    requires forall k :: 0 <= k < |subs| ==> !PricingFails(rates, offers, subs[k])
    ensures var run := RunOver(rates, offers, supplierCode, subs);
      var chosen := Interested(offers, subs);
      && !run.aborted
      && |run.sends| == |chosen|
      && forall i :: 0 <= i < |chosen| ==>
           OfferMessage(EnginePrice(rates, chosen[i]), chosen[i], OffersFor(chosen[i], offers), supplierCode).Some?
           && run.sends[i] == (chosen[i].whatsappNumber,
                OfferMessage(EnginePrice(rates, chosen[i]), chosen[i], OffersFor(chosen[i], offers), supplierCode).value)
  {
    if subs != [] {
      var init := subs[..|subs| - 1];
      var last := subs[|subs| - 1];
      assert forall k :: 0 <= k < |init| ==> init[k] == subs[k];
      RunSendsToInterested(rates, offers, supplierCode, init);
      TurnFailsIffPricingFails(rates, offers, supplierCode, last);
    }
  }

  /** `fails` holds for some subscriber of the list. */
  function Any(fails: Subscriber -> bool, subs: seq<Subscriber>): bool {
    subs != [] && (Any(fails, subs[..|subs| - 1]) || fails(subs[|subs| - 1]))
  }

  lemma {:induction false} AnyIff(fails: Subscriber -> bool, subs: seq<Subscriber>)
    ensures Any(fails, subs) <==> exists k :: 0 <= k < |subs| && fails(subs[k])
  {
    if subs != [] {
      var init := subs[..|subs| - 1];
      AnyIff(fails, init);
      if exists k :: 0 <= k < |init| && fails(init[k]) {
        var k :| 0 <= k < |init| && fails(init[k]);
        assert subs[k] == init[k];
      }
      if exists k :: 0 <= k < |subs| && fails(subs[k]) {
        var k :| 0 <= k < |subs| && fails(subs[k]);
        if k < |init| {
          assert init[k] == subs[k];
        }
      }
    }
  }

  /**
    A run is aborted exactly when pricing fails for some recipient.
  */
  lemma RunAbortsOnPricingError(rates: RateTable, offers: seq<Offer>, supplierCode: string, subs: seq<Subscriber>)
    ensures RunOver(rates, offers, supplierCode, subs).aborted <==>
      exists k :: 0 <= k < |subs| && PricingFails(rates, offers, subs[k])
  {
    var fails := s => PricingFails(rates, offers, s);
    RunAbortsIffSomeFails(rates, offers, supplierCode, subs);
    AnyIff(fails, subs);
  }

  lemma {:induction false} RunAbortsIffSomeFails(rates: RateTable, offers: seq<Offer>, supplierCode: string, subs: seq<Subscriber>)
    ensures RunOver(rates, offers, supplierCode, subs).aborted <==> Any(s => PricingFails(rates, offers, s), subs)
  {
    if subs != [] {
      RunAbortsIffSomeFails(rates, offers, supplierCode, subs[..|subs| - 1]);
      TurnFailsIffPricingFails(rates, offers, supplierCode, subs[|subs| - 1]);
    }
  }

  /** Without a single recipient only active subscribers are messaged; a named one always is considered. */
  lemma RecipientsAreChosen(single: Option<Subscriber>, all: seq<Subscriber>)
    ensures single.Some? ==> Recipients(single, all) == [single.value]
    ensures single.None? ==> forall s :: s in Recipients(single, all) ==> s in all && s.isActive
  {
  }

  /** Every active subscriber is a recipient of a run over all subscribers. */
  lemma {:induction false} ActiveAreRecipients(all: seq<Subscriber>, s: Subscriber)
    requires s in all && s.isActive
    ensures s in Active(all)
  {
    var init := all[..|all| - 1];
    if s != all[|all| - 1] {
      assert s in init by {
        var k :| 0 <= k < |all| && all[k] == s;
        assert init[k] == s;
      }
      ActiveAreRecipients(init, s);
    }
  }
}
