/**
  Messages to subscribers (`get_country_flag` and `NotificationEngine`):
  the region flag, the normalisation of WhatsApp numbers, the send call
  and the composition of one personalised offer message.

  The HTTP exchange with the WhatsApp service is not modelled; a
  `Gateway` records the requests it would post and answers through the
  `respond` function it was built with.
*/
module Notification {
  import opened Wrappers
  import opened Text
  import opened Models
  import opened Rates
  import opened Pricing

  // -----------------------------------------------------------------------
  // Region flags

  /** The known regions and their flags, in declaration order. */
  const REGION_FLAGS: seq<(string, string)> := [
    ("USA", "🇺🇸"), ("JAPAN", "🇯🇵"), ("VIETNAM", "🇻🇳"),
    ("HONG KONG", "🇭🇰"), ("UAE", "🇦🇪"), ("KSA", "🇸🇦"),
    ("EUROPE", "🇪🇺"), ("UK", "🇬🇧"), ("CHINA", "🇨🇳"),
    ("GLOBAL", "🌍"), ("INTERNATIONAL", "🌍")
  ]

  /** The flag, plus a space, of the first listed region named in `hay`. */
  function FirstFlag(flags: seq<(string, string)>, hay: string): string {
    if flags == [] then ""
    else if Contains(hay, Lower(flags[0].0)) then flags[0].1 + " "
    else FirstFlag(flags[1..], hay)
  }

  /** `get_country_flag`: "" for an empty region, else the first matching flag and a space. */
  function GetCountryFlag(region: string): string {
    if region == "" then "" else FirstFlag(REGION_FLAGS, Lower(region))
  }

  /**
    The search returns the flag of the FIRST listed region whose name occurs
    in the text (ignoring case), and "" exactly when none occurs.
  */
  lemma {:induction false} FirstFlagIsFirstMatch(flags: seq<(string, string)>, hay: string)
    ensures FirstFlag(flags, hay) == "" <==> forall i :: 0 <= i < |flags| ==> !Contains(hay, Lower(flags[i].0))
    ensures FirstFlag(flags, hay) != "" ==>
      exists i :: 0 <= i < |flags| && Contains(hay, Lower(flags[i].0))
        && (forall j :: 0 <= j < i ==> !Contains(hay, Lower(flags[j].0)))
        && FirstFlag(flags, hay) == flags[i].1 + " "
  {
    if flags != [] {
      FirstFlagIsFirstMatch(flags[1..], hay);
      if !Contains(hay, Lower(flags[0].0)) && FirstFlag(flags, hay) != "" {
        var i :| 0 <= i < |flags[1..]| && Contains(hay, Lower(flags[1..][i].0))
          && (forall j :: 0 <= j < i ==> !Contains(hay, Lower(flags[1..][j].0)))
          && FirstFlag(flags[1..], hay) == flags[1..][i].1 + " ";
        assert forall j :: 0 <= j < i + 1 ==> !Contains(hay, Lower(flags[j].0)) by {
          forall j | 0 <= j < i + 1 ensures !Contains(hay, Lower(flags[j].0)) {
            if j > 0 {
              assert flags[j] == flags[1..][j - 1];
            }
          }
        }
      }
      if FirstFlag(flags, hay) == "" {
        assert forall i :: 0 <= i < |flags| ==> !Contains(hay, Lower(flags[i].0)) by {
          forall i | 0 <= i < |flags| ensures !Contains(hay, Lower(flags[i].0)) {
            if i > 0 {
              assert flags[i] == flags[1..][i - 1];
            }
          }
        }
      }
    }
  }

  /** The region flag is that of the first listed region named in the region text. */
  lemma CountryFlagIsFirstListedRegion(region: string)
    ensures region == "" ==> GetCountryFlag(region) == ""
    ensures region != "" ==>
      (GetCountryFlag(region) == "" <==>
        forall i :: 0 <= i < |REGION_FLAGS| ==> !Contains(Lower(region), Lower(REGION_FLAGS[i].0)))
    ensures GetCountryFlag(region) != "" ==>
      exists i :: 0 <= i < |REGION_FLAGS| && Contains(Lower(region), Lower(REGION_FLAGS[i].0))
        && (forall j :: 0 <= j < i ==> !Contains(Lower(region), Lower(REGION_FLAGS[j].0)))
        && GetCountryFlag(region) == REGION_FLAGS[i].1 + " "
  {
    FirstFlagIsFirstMatch(REGION_FLAGS, Lower(region));
  }

  // -----------------------------------------------------------------------
  // WhatsApp numbers

  const COUNTRY_PREFIX := "966"

  /**
    The number actually dialled: the digits of the input; a number that is
    short (under 10 digits) and lacks the 966 prefix loses its leading
    zeros and gets the prefix. No digits at all is an invalid number.
  */
  function NormalizePhone(recipient: string): Option<string> {
    var digits := KeepDigits(recipient);
    if digits == "" then None
    else if !StartsWith(digits, COUNTRY_PREFIX) && |digits| < 10 then Some(COUNTRY_PREFIX + LStripZeros(digits))
    else Some(digits)
  }

  /** A number the service can be sent to: digits only, 966-prefixed or at least 10 digits long. */
  predicate Dialable(n: string) {
    n != "" && AllDigits(n) && (StartsWith(n, COUNTRY_PREFIX) || |n| >= 10)
  }

  lemma PrefixedDigits(s: string)
    requires AllDigits(s)
    ensures AllDigits(COUNTRY_PREFIX + s) && StartsWith(COUNTRY_PREFIX + s, COUNTRY_PREFIX)
  {
    var n := COUNTRY_PREFIX + s;
    assert n[..3] == COUNTRY_PREFIX;
    assert forall i :: 3 <= i < |n| ==> n[i] == s[i - 3];
  }

  lemma {:induction false} StrippedDigits(s: string)
    requires AllDigits(s)
    ensures AllDigits(LStripZeros(s))
    decreases |s|
  {
    if |s| > 0 && s[0] == '0' {
      assert AllDigits(s[1..]) by {
        forall i | 0 <= i < |s| - 1
          ensures IsDigit(s[1..][i])
        {
          assert s[1..][i] == s[i + 1];
        }
      }
      StrippedDigits(s[1..]);
    }
  }

  /**
    Normalisation fails exactly when the input holds no digit; otherwise
    the number is dialable and ends with the input's digits (without their
    leading zeros).
  */
  lemma NormalizedPhoneShape(recipient: string)
    ensures NormalizePhone(recipient).None? <==> KeepDigits(recipient) == ""
    ensures NormalizePhone(recipient).Some? ==> Dialable(NormalizePhone(recipient).value)
    ensures NormalizePhone(recipient).Some? ==>
      EndsWith(NormalizePhone(recipient).value, LStripZeros(KeepDigits(recipient)))
  {
    KeepDigitsAreDigits(recipient);
    var digits := KeepDigits(recipient);
    if digits != "" {
      if !StartsWith(digits, COUNTRY_PREFIX) && |digits| < 10 {
        PrefixedShape(digits);
      } else {
        KeptShape(digits);
      }
    }
  }

  lemma PrefixedShape(digits: string)
    requires AllDigits(digits)
    ensures Dialable(COUNTRY_PREFIX + LStripZeros(digits))
    ensures EndsWith(COUNTRY_PREFIX + LStripZeros(digits), LStripZeros(digits))
  {
    var stripped := LStripZeros(digits);
    StrippedDigits(digits);
    PrefixedDigits(stripped);
    var n := COUNTRY_PREFIX + stripped;
    assert n[|n| - |stripped|..] == stripped;
  }

  lemma KeptShape(digits: string)
    requires AllDigits(digits) && digits != ""
    requires StartsWith(digits, COUNTRY_PREFIX) || |digits| >= 10
    ensures Dialable(digits)
    ensures EndsWith(digits, LStripZeros(digits))
  {
    var stripped := LStripZeros(digits);
    assert digits[|digits| - |stripped|..] == stripped;
  }

  /** A dialable number is left as it is. */
  lemma DialableIsFixed(n: string)
    requires Dialable(n)
    ensures NormalizePhone(n) == Some(n)
  {
    KeepDigitsOfDigits(n);
  }

  /** Normalising an already normalised number changes nothing. */
  lemma NormalizePhoneIdempotent(recipient: string)
    requires NormalizePhone(recipient).Some?
    ensures NormalizePhone(NormalizePhone(recipient).value) == NormalizePhone(recipient)
  {
    NormalizedPhoneShape(recipient);
    DialableIsFixed(NormalizePhone(recipient).value);
  }

  // -----------------------------------------------------------------------
  // Sending

  /** What the WhatsApp service answered to one post. */
  datatype Reply =
    | Accepted                      // the JSON answer has "sent": "true"
    | Refused(error: Option<string>) // any other JSON answer, with its "error" field if any
    | RequestFailed(detail: string)  // network error or HTTP error status
    | NotJson                        // the body is not JSON
    | Crashed(detail: string)        // any other exception

  datatype SendResult = Sent | NotSent(reason: string)

  /** The outcome that `send_whatsapp_message` reports for a given service reply. */
  function ReplyResult(reply: Reply): SendResult {
    match reply
    case Accepted => Sent
    case Refused(error) => NotSent(match error case Some(e) => e case None => "Unknown error")
    case RequestFailed(detail) => NotSent("HTTP error: " + detail)
    case NotJson => NotSent("Invalid response from WhatsApp API")
    case Crashed(detail) => NotSent("Unexpected error: " + detail)
  }

  /** The requests one call posts: one, to the normalised number, when it gets that far. */
  function PostsFor(configured: bool, recipient: string, body: string): seq<(string, string)> {
    if configured && NormalizePhone(recipient).Some? then [(NormalizePhone(recipient).value, body)] else []
  }

  class Gateway {
    /** Whether both service credentials are present in the settings. */
    const configured: bool
    const respond: (string, string) -> Reply
    /** Every (number, body) request posted so far, in order. */
    var posts: seq<(string, string)>

    constructor (configured: bool, respond: (string, string) -> Reply)
      ensures this.configured == configured && this.respond == respond && posts == []
    {
      this.configured := configured;
      this.respond := respond;
      posts := [];
    }

    /**
      `send_whatsapp_message`: without credentials or without a usable number
      nothing is posted; otherwise one request goes to the normalised number
      and the service's reply decides the outcome.
    */
    method SendWhatsappMessage(recipient: string, body: string) returns (result: SendResult)
      modifies this
      ensures posts == old(posts) + PostsFor(configured, recipient, body)
      ensures !configured ==> result == NotSent("WhatsApp credentials not configured")
      ensures configured && NormalizePhone(recipient).None? ==> result == NotSent("Invalid phone number")
      ensures configured && NormalizePhone(recipient).Some? ==>
        result == ReplyResult(respond(NormalizePhone(recipient).value, body))
    {
      if !configured {
        return NotSent("WhatsApp credentials not configured");
      }
      var formatted := NormalizePhone(recipient);
      if formatted.None? {
        return NotSent("Invalid phone number");
      }
      posts := posts + [(formatted.value, body)];
      result := ReplyResult(respond(formatted.value, body));
    }
  }

  // -----------------------------------------------------------------------
  // The offer message

  /** `str()` of a Decimal rounded to two places, given in cents. */
  function FormatCents(cents: int): string {
    var magnitude: nat := if cents < 0 then -cents else cents;
    (if cents < 0 then "-" else "") + NatToString(magnitude / 100) + "." + TwoDigits(magnitude % 100)
  }

  function TwoDigits(n: nat): string
    requires n < 100
  {
    [DigitChar(n / 10), DigitChar(n % 10)]
  }

  lemma TwoDigitsValue(n: nat)
    requires n < 100
    ensures AllDigits(TwoDigits(n)) && DigitsValue(TwoDigits(n)) == n
  {
    var t := TwoDigits(n);
    assert t[..1] == [DigitChar(n / 10)];
    assert t[..1][..0] == [];
    assert DigitsValue(t[..1]) == n / 10;
    assert t[1] as int - '0' as int == n % 10;
  }

  /** The formatted amount reads back as the number of cents it was made from. */
  lemma FormatCentsReadsBack(cents: int)
    ensures var text := FormatCents(cents);
      var body := if cents < 0 then text[1..] else text;
      && |body| >= 4
      && body[|body| - 3] == '.'
      && AllDigits(body[..|body| - 3]) && AllDigits(body[|body| - 2..])
      && DigitsValue(body[..|body| - 3]) * 100 + DigitsValue(body[|body| - 2..]) == (if cents < 0 then -cents else cents)
  {
    var magnitude: nat := if cents < 0 then -cents else cents;
    NatToStringDigits(magnitude / 100);
    TwoDigitsValue(magnitude % 100);
    var text := FormatCents(cents);
    var body := if cents < 0 then text[1..] else text;
    var whole := NatToString(magnitude / 100);
    var frac := TwoDigits(magnitude % 100);
    assert body == whole + "." + frac;
    assert body[..|body| - 3] == whole;
    assert body[|body| - 2..] == frac;
  }

  /** How the price of one offer is shown. */
  datatype PriceLabel =
    | Amount(cents: int, currency: string)  // the bold rounded amount and currency
    | OnRequest                             // the offer is free of charge: "on request"
    | Unavailable                           // "price unavailable"

  /**
    The price label of one offer as `build_offer_message` chooses it: "on
    request" for a no-charge result, the amount for a priced one. For an
    error result the code reads the missing "price" key, which raises
    `KeyError`: there is no label (None).
  */
  function PriceLabelOf(result: PriceResult): Option<PriceLabel> {
    match result
    case NoCharge(_) => Some(OnRequest)
    case Priced(cents, currency) => Some(Amount(cents, currency))
    case PriceError(_) => None
  }

  /** The label the code evidently meant: "price unavailable" for an error result. */
  function IntendedPriceLabel(result: PriceResult): (r: PriceLabel)
    ensures PriceLabelOf(result).Some? ==> r == PriceLabelOf(result).value
    ensures PriceLabelOf(result).None? <==> r == Unavailable
  {
    match result
    case PriceError(_) => Unavailable
    case NoCharge(_) => OnRequest
    case Priced(cents, currency) => Amount(cents, currency)
  }

  /**
    One line of the message. The lines are kept as values and turned into
    text by `Render`, which holds the fixed wording.
  */
  datatype Line =
    | Greeting(subscriberName: string)
    | Introduction(supplierCode: string)
    | HeaderRule
    | Product(brand: Option<string>, productName: string)
    | Storage(storage: string)
    | Colour(colour: string)
    | Region(region: string)
    | Price(priceLabel: PriceLabel)
    | Quantity(quantity: int)
    | Code(code: string)
    | OfferRule
    | Footer

  function LabelText(shown: PriceLabel): string {
    match shown
    case Amount(cents, currency) => "*" + FormatCents(cents) + " " + currency + "*"
    case OnRequest => "عند الطلب"
    case Unavailable => "السعر غير متوفر"
  }

  /** The text of one line; a region line starts with its flag and a space, if any. */
  function Render(line: Line): string {
    match line
    case Greeting(name) => "عزيزي " + name + "،"
    case Introduction(code) => "لدينا عروض جديدة من " + code + " تناسب اهتماماتك:"
    case HeaderRule => "========================================"
    case Product(brand, name) => "📱 " + (match brand case Some(b) => b case None => "عام") + " - " + name
    case Storage(storage) => "💾 " + storage
    case Colour(colour) => "🎨 " + colour
    case Region(region) => GetCountryFlag(region) + " الدولة: " + region
    case Price(shown) => "💰 السعر: " + LabelText(shown)
    case Quantity(quantity) => "🛒 الكمية: " + IntToString(quantity)
    case Code(code) => "🆔 كود العرض: " + code
    case OfferRule => "------------------------------"
    case Footer => "للاستفسار أو الطلب، راسلنا على هذا الرقم"
  }

  /** No rendered line is empty, so the filter on empty lines drops none of them. */
  lemma RenderedLinesAreNonEmpty(line: Line)
    ensures Render(line) != ""
  {
    if line.Region? {
      assert Render(line)[|GetCountryFlag(line.region)|] == ' ';
    }
  }

  function RenderAll(lines: seq<Line>): (r: seq<string>)
    ensures |r| == |lines|
  {
    if lines == [] then [] else RenderAll(lines[..|lines| - 1]) + [Render(lines[|lines| - 1])]
  }

  /** `[line for line in lines if line]`, an unset optional line being None. */
  function Present(lines: seq<Option<Line>>): (r: seq<Line>)
    ensures |r| <= |lines|
  {
    if lines == [] then []
    else (match lines[0] case Some(line) => [line] case None => []) + Present(lines[1..])
  }

  /**
    The detail lines of one offer. The storage, colour and quantity lines
    are empty when their field is unset and are then dropped; every other
    line is always kept.
  */
  function OfferLines(offer: Offer, shown: PriceLabel): seq<Line> {
    Present([
      Some(Product(offer.brand, offer.name)),
      if offer.storage != "" then Some(Storage(offer.storage)) else None,
      if offer.color != "" then Some(Colour(offer.color)) else None,
      Some(Region(offer.specRegion)),
      Some(Price(shown)),
      if offer.quantity != 0 then Some(Quantity(offer.quantity)) else None,
      Some(Code(offer.code)),
      Some(OfferRule)
    ])
  }

  /** Every present line is kept. */
  lemma {:induction false} PresentKeeps(lines: seq<Option<Line>>, i: nat)
    requires i < |lines| && lines[i].Some?
    ensures lines[i].value in Present(lines)
  {
    if i > 0 {
      PresentKeeps(lines[1..], i - 1);
    }
  }

  /** A present last line stays last. */
  lemma {:induction false} PresentKeepsLast(lines: seq<Option<Line>>)
    requires lines != [] && lines[|lines| - 1].Some?
    ensures Present(lines) != [] && Present(lines)[|Present(lines)| - 1] == lines[|lines| - 1].value
  {
    if |lines| > 1 {
      PresentKeepsLast(lines[1..]);
    }
  }

  /**
    An offer is shown from its product line to its rule, and always with
    its price line and its code line.
  */
  lemma OfferLinesShape(offer: Offer, shown: PriceLabel)
    ensures var lines := OfferLines(offer, shown);
      && |lines| <= 8
      && lines != [] && lines[0] == Product(offer.brand, offer.name)
      && lines[|lines| - 1] == OfferRule
      && Price(shown) in lines && Code(offer.code) in lines
  {
    var all := [
      Some(Product(offer.brand, offer.name)),
      if offer.storage != "" then Some(Storage(offer.storage)) else None,
      if offer.color != "" then Some(Colour(offer.color)) else None,
      Some(Region(offer.specRegion)),
      Some(Price(shown)),
      if offer.quantity != 0 then Some(Quantity(offer.quantity)) else None,
      Some(Code(offer.code)),
      Some(OfferRule)
    ];
    PresentKeepsLast(all);
    PresentKeeps(all, 4);
    PresentKeeps(all, 6);
  }

  function Header(sub: Subscriber, supplierCode: string): seq<Line> {
    [Greeting(sub.name), Introduction(supplierCode), HeaderRule]
  }

  /** The detail lines of all offers, or None as soon as one of them raises. */
  function OffersLines(price: Offer -> PriceResult, offers: seq<Offer>): Option<seq<Line>> {
    if offers == [] then Some([])
    else
      var last := offers[|offers| - 1];
      match OffersLines(price, offers[..|offers| - 1])
      case None => None
      case Some(lines) =>
        match PriceLabelOf(price(last))
        case None => None
        case Some(shown) => Some(lines + OfferLines(last, shown))
  }

  /** The message lines: header, the offers' detail lines, footer. */
  function MessageLines(price: Offer -> PriceResult, sub: Subscriber, offers: seq<Offer>, supplierCode: string): Option<seq<Line>> {
    match OffersLines(price, offers)
    case None => None
    case Some(body) => Some(Header(sub, supplierCode) + body + [Footer])
  }

  /** The text `build_offer_message` returns, or None when it raises `KeyError`. */
  function OfferMessage(price: Offer -> PriceResult, sub: Subscriber, offers: seq<Offer>, supplierCode: string): Option<string> {
    match MessageLines(price, sub, offers, supplierCode)
    case None => None
    case Some(lines) => Some(Join(RenderAll(lines), "\n"))
  }

  /** The pricing engine's result for each offer, for one subscriber. */
  function EnginePrice(rates: RateTable, sub: Subscriber): Offer -> PriceResult {
    offer => FinalPrice(rates, offer, sub)
  }

  /** `build_offer_message`: price every offer, then append its detail lines. */
  method BuildOfferMessage(rates: RateTable, sub: Subscriber, offers: seq<Offer>, supplier: Supplier)
    returns (message: Option<string>)
    ensures message == OfferMessage(EnginePrice(rates, sub), sub, offers, supplier.code)
  {
    ghost var price := EnginePrice(rates, sub);
    var lines := Header(sub, supplier.code);
    for i := 0 to |offers|
      invariant OffersLines(price, offers[..i]).Some?
      invariant lines == Header(sub, supplier.code) + OffersLines(price, offers[..i]).value
    {
      var offer := offers[i];
      var priceData := CalculateFinalPrice(rates, offer, sub);
      assert priceData == price(offer);
      var shown := PriceLabelOf(priceData);
      OffersLinesStep(price, offers, i);
      if shown.None? {
        OffersLinesFailFromPrefix(price, offers, i + 1);
        return None;
      }
      lines := lines + OfferLines(offer, shown.value);
    }
    assert offers[..|offers|] == offers;
    lines := lines + [Footer];
    assert MessageLines(price, sub, offers, supplier.code) == Some(lines);
    message := Some(Join(RenderAll(lines), "\n"));
  }

  /** One more offer: its lines are appended, or the whole build raises. */
  lemma OffersLinesStep(price: Offer -> PriceResult, offers: seq<Offer>, i: nat)
    requires i < |offers| && OffersLines(price, offers[..i]).Some?
    ensures PriceLabelOf(price(offers[i])).None? ==> OffersLines(price, offers[..i + 1]).None?
    ensures PriceLabelOf(price(offers[i])).Some? ==>
      OffersLines(price, offers[..i + 1]) ==
        Some(OffersLines(price, offers[..i]).value + OfferLines(offers[i], PriceLabelOf(price(offers[i])).value))
  {
    assert offers[..i + 1][..i] == offers[..i];
  }

  /** Once a prefix of the offers raises, the whole list raises. */
  lemma {:induction false} OffersLinesFailFromPrefix(price: Offer -> PriceResult, offers: seq<Offer>, k: nat)
    requires k <= |offers| && OffersLines(price, offers[..k]).None?
    ensures OffersLines(price, offers).None?
    decreases |offers| - k
  {
    if k < |offers| {
      assert offers[..k + 1][..k] == offers[..k];
      OffersLinesFailFromPrefix(price, offers, k + 1);
    } else {
      assert offers[..k] == offers;
    }
  }

  /**
    As written, the message cannot be built exactly when some offer's
    pricing ends in an error (a missing target currency or base rate).
  */
  lemma {:induction false} MessageFailsIffSomePriceFails(price: Offer -> PriceResult, sub: Subscriber, offers: seq<Offer>, supplierCode: string)
    ensures OfferMessage(price, sub, offers, supplierCode).None? <==> HasUnpriced(price, offers)
    ensures HasUnpriced(price, offers) <==> exists i :: 0 <= i < |offers| && price(offers[i]).PriceError?
  {
    OffersLinesFailIffUnpriced(price, offers);
    HasUnpricedIff(price, offers);
  }

  /** Some offer's price ends in an error. */
  function HasUnpriced(price: Offer -> PriceResult, offers: seq<Offer>): bool {
    offers != [] && (HasUnpriced(price, offers[..|offers| - 1]) || price(offers[|offers| - 1]).PriceError?)
  }

  lemma {:induction false} OffersLinesFailIffUnpriced(price: Offer -> PriceResult, offers: seq<Offer>)
    ensures OffersLines(price, offers).None? <==> HasUnpriced(price, offers)
  {
    if offers != [] {
      OffersLinesFailIffUnpriced(price, offers[..|offers| - 1]);
    }
  }

  lemma {:induction false} HasUnpricedIff(price: Offer -> PriceResult, offers: seq<Offer>)
    ensures HasUnpriced(price, offers) <==> exists i :: 0 <= i < |offers| && price(offers[i]).PriceError?
  {
    if offers != [] {
      var init := offers[..|offers| - 1];
      HasUnpricedIff(price, init);
      if exists i :: 0 <= i < |init| && price(init[i]).PriceError? {
        var i :| 0 <= i < |init| && price(init[i]).PriceError?;
        assert offers[i] == init[i];
      }
      if exists i :: 0 <= i < |offers| && price(offers[i]).PriceError? {
        var i :| 0 <= i < |offers| && price(offers[i]).PriceError?;
        if i < |init| {
          assert init[i] == offers[i];
        }
      }
    }
  }

  /**
    A built message opens with the three header lines, closes with the
    footer and shows every offer's product line and code line.
  */
  lemma MessageShape(price: Offer -> PriceResult, sub: Subscriber, offers: seq<Offer>, supplierCode: string)
    requires MessageLines(price, sub, offers, supplierCode).Some?
    ensures var lines := MessageLines(price, sub, offers, supplierCode).value;
      && lines[..3] == Header(sub, supplierCode)
      && lines[|lines| - 1] == Footer
      && forall i :: 0 <= i < |offers| ==>
           Product(offers[i].brand, offers[i].name) in lines && Code(offers[i].code) in lines
  {
    OffersLinesShowEveryOffer(price, offers);
    var body := OffersLines(price, offers).value;
    var lines := Header(sub, supplierCode) + body + [Footer];
    assert lines[..3] == Header(sub, supplierCode);
    forall line | line in body
      ensures line in lines
    {
      var k :| 0 <= k < |body| && body[k] == line;
      assert lines[3 + k] == line;
    }
  }

  lemma {:induction false} OffersLinesShowEveryOffer(price: Offer -> PriceResult, offers: seq<Offer>)
    requires OffersLines(price, offers).Some?
    ensures forall i :: 0 <= i < |offers| ==>
      && Product(offers[i].brand, offers[i].name) in OffersLines(price, offers).value
      && Code(offers[i].code) in OffersLines(price, offers).value
  {
    if offers != [] {
      var init := offers[..|offers| - 1];
      var last := offers[|offers| - 1];
      OffersLinesShowEveryOffer(price, init);
      OfferLinesShape(last, PriceLabelOf(price(last)).value);
      forall i | 0 <= i < |init|
        ensures offers[i] == init[i]
      {
      }
    }
  }

  // -----------------------------------------------------------------------
  // The message as evidently intended

  /** The detail lines with the intended price label: defined for every list of offers. */
  function IntendedOffersLines(price: Offer -> PriceResult, offers: seq<Offer>): seq<Line> {
    if offers == [] then []
    else
      var last := offers[|offers| - 1];
      IntendedOffersLines(price, offers[..|offers| - 1])
        + OfferLines(last, IntendedPriceLabel(price(last)))
  }

  function IntendedOfferMessage(price: Offer -> PriceResult, sub: Subscriber, offers: seq<Offer>, supplierCode: string): string {
    Join(RenderAll(Header(sub, supplierCode) + IntendedOffersLines(price, offers) + [Footer]), "\n")
  }

  /**
    The intended message agrees with the written one wherever the written
    one exists.
  */
  lemma {:induction false} IntendedMessageExtendsWritten(price: Offer -> PriceResult, sub: Subscriber, offers: seq<Offer>, supplierCode: string)
    ensures OffersLines(price, offers).Some? ==>
      OffersLines(price, offers).value == IntendedOffersLines(price, offers)
    ensures OfferMessage(price, sub, offers, supplierCode).Some? ==>
      OfferMessage(price, sub, offers, supplierCode).value == IntendedOfferMessage(price, sub, offers, supplierCode)
  {
    if offers != [] {
      IntendedMessageExtendsWritten(price, sub, offers[..|offers| - 1], supplierCode);
    }
  }

  /**
    Where the written code raises, the intended message still lists every
    offer: an offer whose pricing failed shows the "price unavailable" line.
  */
  lemma {:induction false} IntendedListsFailedOffer(price: Offer -> PriceResult, offers: seq<Offer>, i: nat)
    requires i < |offers| && price(offers[i]).PriceError?
    ensures Price(Unavailable) in IntendedOffersLines(price, offers)
    ensures Code(offers[i].code) in IntendedOffersLines(price, offers)
  {
    var init := offers[..|offers| - 1];
    var last := offers[|offers| - 1];
    var tail := OfferLines(last, IntendedPriceLabel(price(last)));
    assert IntendedOffersLines(price, offers) == IntendedOffersLines(price, init) + tail;
    if i < |init| {
      assert init[i] == offers[i];
      IntendedListsFailedOffer(price, init, i);
    } else {
      OfferLinesShape(last, Unavailable);
    }
  }
}
