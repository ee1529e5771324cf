# Pricing system core, modelled in Dafny

This project models the core of a Django back office that takes supplier
offers for phones and devices and sends each subscriber a personalised
WhatsApp message with prices in the subscriber's own currency.

The model covers:

- **Pricing engine** (`pricing.dfy`, `rates.dfy`, `matching.dfy`): how a
  conversion rate is looked up, with the inverse-rate fallback. Also the
  final price of an offer for a subscriber: the base price converted, plus
  shipping, plus the longest-matching mandatory device fee for external
  subscribers, rounded half-even to cents.
- **Notifications** (`notification.dfy`):
  - the region flag;
  - the normalisation of WhatsApp numbers to the 966 country prefix;
  - the send call, with a `Gateway` class that records the requests it posts;
  - the composition of an offer message.
- **Distribution** (`distribution.dfy`): how a subscriber's preferences
  filter the offers, and the run that builds and sends one message per
  interested recipient.
- **Offer views**:
  - how posted form keys (`group-N-field`, `group-N-variant-M-field`) are
    read back into groups and variants (`formdata.dfy`);
  - the shipping-rate choice of the analysis views (`shipping.dfy`);
  - the mandatory-fee check, the offers built from the form, and the two
    save flows that save offers and then distribute them (`views.dfy`).
- **Models** (`models.dfy`): the entities, their declared constraints and
  defaults, and the `save()` methods of suppliers and offers, which assign
  the display codes `SUP-0001` and `OFF-00001`.

`scenarios.dfy` works through concrete data: one offer priced end to end,
and the inputs behind the two findings below.

Money is modelled as `real` (Python `Decimal`). A final price is an
integer number of cents. Rounding follows Python's `round(x, 2)` on a
`Decimal`, which rounds half to even.

Database queries become values passed in:

- the rate table is a map keyed by upper-cased currency pairs;
- subscribers are a sequence in database order;
- the offer and supplier tables are classes whose `save` assigns keys and codes.

The WhatsApp service's answer, the AI assistant's answer and the
decimal/integer parsers are parameters.

## Model

| member | source | states |
|---|---|---|
| Models.SupplierTable.Save | management/models.py:43-50 | A new supplier gets the next key and the code "SUP-" plus its key padded to four digits. A stored one is written back unchanged. Only that row changes. Every stored supplier keeps the code of its key. |
| Models.OfferTable.Save | management/models.py:232-238 | A new offer gets the next key and the code "OFF-" plus its key padded to five digits. A stored one keeps its code. Only that row changes. The table invariant (code derived from key) is kept. |
| Models.SaveTwiceKeepsCode | management/models.py:232-238 | Saving an offer, then saving the result again, gives the same record and code. Only one new row appears. |
| Models.SupplierCodeDecodes | management/models.py:47 | A supplier code is "SUP-" followed by at least four digits that read back as the key. |
| Models.SupplierCodeInjective | management/models.py:47 | Distinct suppliers get distinct codes, as the unique code column requires. |
| Models.OfferCodeDecodes | management/models.py:235 | An offer code is "OFF-" followed by at least five digits that read back as the key. |
| Models.OfferCodeInjective | management/models.py:235 | Distinct offers get distinct codes. |
| Rates.TrivialPairIsOne | management/engine.py:31-32 | A missing currency, or the same currency ignoring case, converts at 1 whatever the table holds. |
| Rates.DirectRateWins | management/engine.py:33-35 | A stored rate for the pair, matched ignoring case, is used as it is. |
| Rates.InverseFallback | management/engine.py:36-41 | Without a direct rate, the reciprocal of the reverse rate is used. There is no rate exactly when the reverse rate is missing or zero. |
| Rates.OneWayRateIsReversible | management/engine.py:33-39 | A single non-zero stored rate converts both ways, and the two rates multiply to 1. |
| Rates.TableOfRows | management/models.py:62-67 | The table built from rate rows that are unique ignoring case holds each row under its pair, and holds nothing else. |
| Rates.StoredRateIsFound | management/engine.py:34 | A stored row is found for any spelling of its currencies. |
| Matching.LongestFirstIsLongest | management/engine.py:81-84 | The scan picks an eligible keyword of maximal length, the first such one. It finds nothing exactly when no keyword is eligible. |
| Matching.LongestFirstUnique | management/engine.py:81-84 | The "first longest match" is a single well-defined index. |
| Pricing.RoundCents | management/engine.py:97 | The cents are within half a cent of the exact amount, and an exact tie goes to the even cent. |
| Pricing.RoundCentsMonotone | management/engine.py:97 | Rounding never reverses the order of two amounts. |
| Pricing.RoundCentsExact | management/engine.py:97 | An amount that is already in whole cents is unchanged. |
| Pricing.FindBestFee | management/engine.py:77-84 | The fee loop picks the same fee as the specification `BestFee`. |
| Pricing.BestFeeIsLongestMatch | management/engine.py:81-84 | The chosen fee is the first of the longest device keywords contained in the offer name, ignoring case. There is none exactly when no keyword occurs. |
| Pricing.CalculateFinalPrice | management/engine.py:44-97 | The method computes `FinalPrice`, whose properties are the lemmas below. |
| Pricing.NoChargeShortCircuit | management/engine.py:52-56 | A missing or non-positive base price gives "no charge" in the target currency, whatever the rates and fees. |
| Pricing.MissingBaseRateIsError | management/engine.py:58-62 | A positive price fails exactly when its currency has no rate to the target. The error names both currencies. |
| Pricing.PricedIsRoundedSum | management/engine.py:58-97 | A priced result is the rounded sum of the converted base price, shipping and fee, in the subscriber's currency. |
| Pricing.ShippingSoftSkip | management/engine.py:66-73 | Shipping that is zero, has no currency, is "N/A" or has no rate is skipped, and the offer is priced as if it had none. |
| Pricing.FeeSoftSkip | management/engine.py:86-93 | A selected fee that is not positive, or whose currency has no rate (or a zero rate) to the target, is skipped, and the offer is priced as if the subscriber had no fees. |
| Pricing.InternalIgnoresFees | management/engine.py:76 | Device fees never change an internal subscriber's price. |
| Pricing.ConversionRateNonNegative | management/engine.py:30-41 | With non-negative stored rates, every rate found is non-negative. |
| Pricing.ExternalNeverCheaper | management/engine.py:76-93 | With non-negative rates, an external subscriber never pays less than an internal one for the same offer. |
| Pricing.DefaultSubscriberPricesInSar | management/models.py:117-119 | A subscriber created with the defaults (external, active) is quoted in SAR. |
| Notification.FirstFlagIsFirstMatch | management/engine.py:21-24 | The flag search returns the flag of the first listed region named in the text, ignoring case. It returns "" exactly when none is named. |
| Notification.CountryFlagIsFirstListedRegion | management/engine.py:7-24 | `get_country_flag` gives "" for an empty region. Otherwise it gives the flag, plus a space, of the first region in declaration order whose name occurs in the region text. |
| Notification.NormalizedPhoneShape | management/engine.py:112-118 | A normalised number is all digits and either starts with 966 or has at least 10 digits. It ends with the input's digits without their leading zeros. |
| Notification.DialableIsFixed | management/engine.py:112-118 | A number already in that shape is left unchanged. |
| Notification.NormalizePhoneIdempotent | management/engine.py:112-118 | Normalising twice gives the same result as normalising once. |
| Notification.Gateway.SendWhatsappMessage | management/engine.py:105-152 | Missing credentials or a number with no digits send nothing and give the source's error text. Otherwise exactly one request goes to the normalised number, and the service's reply decides the result. |
| Notification.FormatCentsReadsBack | management/engine.py:172 | The printed amount has two decimals and reads back as the cents it was made from. |
| Notification.TwoDigitsValue | management/engine.py:172 | The two printed decimals read back as the cents below 100. |
| Notification.RenderedLinesAreNonEmpty | management/engine.py:174-184 | No line that is always present renders empty, so the filter on empty lines drops only the storage, colour and quantity lines. |
| Notification.OfferLinesShape | management/engine.py:174-184 | An offer's block runs from its product line to its rule and always holds its price line and code line. |
| Notification.BuildOfferMessage | management/engine.py:155-187 | The loop builds `OfferMessage`: the header, each offer's block in order, the footer, joined by newlines. It gives none where the code raises `KeyError`. |
| Notification.MessageFailsIffSomePriceFails | management/engine.py:163-172 | As written, the message cannot be built exactly when some offer's price is an error result. |
| Notification.MessageShape | management/engine.py:157-187 | A built message opens with the greeting, introduction and rule, and ends with the footer. It shows every offer's product and code lines. |
| Notification.OffersLinesShowEveryOffer | management/engine.py:163-184 | Every offer of the list appears, by its product line and code line. |
| Notification.IntendedPriceLabel | management/engine.py:165-172 | The corrected label agrees with the written one wherever that exists, and is "price unavailable" exactly where the code raises. |
| Notification.IntendedMessageExtendsWritten | management/engine.py:163-187 | The corrected message equals the written one whenever the written one can be built. |
| Notification.IntendedListsFailedOffer | management/engine.py:165 | In the corrected message an offer with an error price is still listed, with the "price unavailable" line. |
| Distribution.FilterOffersForSubscriber | management/engine.py:196-233 | The filter loop gives `OffersFor`. All offers pass without preferences or with three empty lists. Otherwise an offer passes when each non-empty list admits its supplier, brand and category, in order. |
| Distribution.FilterMembership | management/engine.py:216-231 | An offer is kept exactly when it is in the input and passes all three checks. |
| Distribution.FilterDistributes | management/engine.py:217-231 | Filtering a concatenation filters each part. The order of the kept offers is the input order. |
| Distribution.UnrestrictedKeepsAll | management/engine.py:200-214 | Without preferences, or with all three lists empty, the subscriber sees every offer. |
| Distribution.OffersForMembership | management/engine.py:200-233 | A selected offer is one of the saved offers and is admitted by the subscriber's preferences. |
| Distribution.Active | management/engine.py:245-246 | Only active subscribers are chosen for a run over all subscribers. |
| Distribution.Serve | management/engine.py:253-262 | One recipient's turn posts the message of their selected offers to their number. It posts nothing when nothing is selected. It fails when the message raises, and then posts nothing. |
| Distribution.Distribute | management/engine.py:236-262 | The run is `RunOver` of the recipients. A completed run posts exactly the messages of `RunOver`, in order. An aborted run is reported as not completed, and it has posted exactly the messages of the recipients served before the failure. |
| Distribution.ServeAll | management/engine.py:253-262 | The loop over the chosen recipients serves them in order. It stops at the first message that raises. Whether or not it completes, it has posted exactly the sends of `RunOver`, in order. |
| Distribution.RunStaysAborted | management/engine.py:253-262 | Once a recipient's message raises, no later recipient is served. |
| Distribution.PricingFailsMeans | management/engine.py:255-260 | A recipient's pricing fails exactly when one of their selected offers has an error price. |
| Distribution.TurnFailsIffPricingFails | management/engine.py:255-262 | A turn fails exactly when the recipient's pricing fails. |
| Distribution.Interested | management/engine.py:255-258 | The recipients messaged are those left with at least one offer. |
| Distribution.RunSendsToInterested | management/engine.py:253-262 | When nobody's pricing fails, the run completes and sends exactly one message to each interested recipient, in order, built from that recipient's own selection. |
| Distribution.AnyIff | management/engine.py:253-262 | The recursive "some recipient fails" test means that some recipient in the list fails. |
| Distribution.RunAbortsOnPricingError | management/engine.py:253-262 | A run is cut short exactly when pricing fails for some recipient. |
| Distribution.RunAbortsIffSomeFails | management/engine.py:253-262 | The same, stated over the recursive test. |
| Distribution.RecipientsAreChosen | management/engine.py:240-251 | A named subscriber is the only recipient, active or not. Otherwise only active subscribers are recipients. |
| Distribution.ActiveAreRecipients | management/engine.py:245-246 | Every active subscriber is a recipient of a run over all subscribers. |
| FormData.Run | management/views.py:83-84 | A greedy `\d+` or `\w+` run is the longest prefix of matching characters. |
| FormData.RunOf | management/views.py:83-84 | A run of matching characters followed by a non-matching one is exactly that run. |
| FormData.VariantTailOf | management/views.py:83 | The variant part of a key written by the form reads back as its variant index and field. |
| FormData.GroupDigits | management/views.py:83-84 | The group digits of a form key read back as its group index. |
| FormData.ParseVariantKey | management/views.py:83-87 | `group-N-variant-M-field` is read back as that variant field. The variant pattern takes precedence over the group pattern. |
| FormData.ParseGroupKey | management/views.py:84-90 | `group-N-field` is read back as that group field. |
| FormData.CsrfTokenIsUnmatched | management/views.py:458 | The CSRF token that the single-subscriber view skips matches neither pattern, so skipping it changes nothing. |
| FormData.StoreLookup | management/views.py:85-90 | Storing one posted item changes only the field it addresses, and only when its value is non-empty. |
| FormData.StoreVariantLookup | management/views.py:87 | Storing one variant field changes only that field. |
| FormData.StoreGroupLookup | management/views.py:90 | Storing one group field changes only that field. |
| FormData.ReconstructedIsLastWrite | management/views.py:79-90 | Every field of the reconstruction holds the value of the last posted item that addressed it with a non-empty value. |
| FormData.ReconstructedGroups | management/views.py:79-90 | A group exists exactly when some item wrote a non-empty value into it. |
| FormData.EmptyReconstruction | management/views.py:79-94 | Nothing is saved exactly when every posted item is unmatched or empty. |
| FormData.DeviceNamesMembership | management/views.py:79-81 | The device names to validate are the stripped non-empty values of `group-…-grouping_name` keys. |
| FormData.ReconstructForm | management/views.py:74-90 | The loop builds `Reconstructed` and `DeviceNames`, whose properties are the lemmas above. |
| Shipping.FirstWithKeyword | management/views.py:56 | Returns the first rate whose keyword equals the given one, or none when no rate has it. |
| Shipping.ChooseShippingRate | management/views.py:40-56 | The loop and the AI fallback give `ShippingChoice`. An empty answer from the AI is ignored. |
| Shipping.ShippingChoiceIsLongestKeyword | management/views.py:44-51 | When the group name contains a non-empty rate keyword, ignoring case, the first of the longest such keywords is chosen and the AI is not asked. |
| Shipping.AiConsultedOnlyWithoutMatch | management/views.py:44-56 | The AI is asked exactly when the name is non-empty and contains no keyword. A non-empty answer selects the first rate with that keyword. No answer, or an empty one, selects nothing. |
| Shipping.AnnotateVariants | management/views.py:58-60 | Every variant gets the chosen shipping cost and currency, and no other field changes. |
| Shipping.AnnotatedVariantsAgree | management/views.py:58-60 | All variants of a group carry the same shipping fields, and their other fields are kept. |
| Shipping.AnalyzeGroups | management/views.py:40-61 | Each group's variants carry the shipping fields of that group's own decision. |
| Views.MissingReportMeans | management/views.py:97-108 | The report lists exactly the active external subscribers lacking a fee for some posted device name, in order, each with the names it lacks. It is empty when no names are posted. |
| Views.CollectMissingFees | management/views.py:97-108 | The loop builds `MissingReport`. |
| Views.ValidateFeesApi | management/views.py:172-182 | The API reports the same as the view's check, for the device names it receives. It reports nothing when it receives none. |
| Views.SortKeys | management/views.py:131 | The keys come out in ascending order, each exactly once. |
| Views.VariantDraft | management/views.py:138-151 | A built offer is unsaved and carries the supplier, and the group's brand and category. |
| Views.VariantDraftDefaults | management/views.py:138-151 | Building fails exactly when a posted price, quantity or shipping cost does not parse. Missing fields take the view's defaults ("New", "USD", "N/A", zero, the bare group name). |
| Views.FullNameStartsWithGroup | management/views.py:139 | An offer's name starts with its group's name. |
| Views.CreateOutcome | management/views.py:140-151 | `create` raises exactly when a posted number does not parse. Otherwise it inserts the built offer unless the database refuses it (models.py:210-217). A posted quantity that parses to a negative number is never inserted. |
| Views.GroupDraftsShape | management/views.py:137-152 | A group yields one offer per variant, in ascending order, up to the first that fails. It yields all of them when none fails. |
| Views.GroupBuiltShape | management/views.py:131-152 | Every offer of a group is unsaved, belongs to that named group, and is one the database accepts. |
| Views.DraftsFromGroups | management/views.py:131-152 | Every built offer comes from one of the groups. |
| Views.DraftsComeFromNamedGroups | management/views.py:131-152 | Every offer built from the form belongs to a posted group with a non-blank name, and the database accepts it. |
| Views.StampedKeys | management/views.py:140-152 | The k-th saved offer has key `first + k` and code `OFF-…` of that key. |
| Views.StoredKeepsAndAdds | management/views.py:140-152 | After saving, the table holds every earlier row unchanged and every saved offer under its key, and nothing else. |
| Views.StampedAppend | management/views.py:131-152 | Saving two batches in turn stamps them with consecutive keys. |
| Views.StoredAppend | management/views.py:131-152 | Saving two batches in turn stores both. |
| Views.GroupDraftsStayFailed | management/views.py:137-160 | After a failing variant, no later variant is built. |
| Views.DraftsStayFailed | management/views.py:131-160 | After a failing group, no later group is built. |
| Views.SaveVariants | management/views.py:137-152 | A group's variants are created in ascending order until one raises or is refused by the database, and the result says which. Those created before it are in the open transaction with fresh keys and codes. |
| Views.SaveGroup | management/views.py:132-152 | A group with a blank name is skipped. Otherwise its variants are saved. |
| Views.SaveDrafts | management/views.py:125-160 | The groups are saved in ascending order. The saved offers are the form's offers stamped with consecutive keys. The result says whether saving stopped on an exception, and whether the database refused a row. |
| Views.SaveDraftsAtomically | management/views.py:66-161 | Corrected: when building fails the table is left as it was. Otherwise it is the same save. |
| Views.SaveAndDistribute | management/views.py:66-161 | No data gives nothing to save. Missing fees block the save and show the report. A missing supplier fails without saving. Otherwise the offers are saved. When the database refuses an offer, the whole request is rolled back: the table is as it was and nothing is sent. Any other failure keeps what was saved and sends nothing. Offers that were saved are distributed to all active subscribers. The posted messages are exactly those of the run, also when it stops at a failing message. |
| Views.SaveAndSendToSingle | management/views.py:446-520 | The same without the fee check, including the rollback when the database refuses an offer; the offers go only to the chosen subscriber. A missing supplier or subscriber fails without saving. |
| Scenarios.IphoneFee | management/engine.py:81-84 | For an "Apple iPhone 15 Pro 256GB" offer, the "iPhone 15 Pro" fee beats the "iPhone" fee. |
| Scenarios.PricedEndToEnd | management/engine.py:44-97 | 100 USD at 3.75, plus 20 AED shipping and a 50 AED fee at 1.02 each, is 446.40 SAR. |
| Scenarios.MissingRateLosesMessage | management/engine.py:163-172 | One offer without a rate makes the whole written message impossible to build. The corrected message lists that offer as "price unavailable". |
| Scenarios.PostedKeys | management/views.py:79-90 | The posted keys are `group-0-grouping_name`, `group-0-variant-0-name` and `group-0-variant-1-price`. |
| Scenarios.PostedForm | management/views.py:79-90 | Those three posted items, with values "iPhone", "Black" and "abc", are reconstructed into one group with two variants. |
| Scenarios.FormBuildsOneThenFails | management/views.py:137-152 | For that form, the first variant builds the offer "iPhone - Black"; the second variant's price does not parse, so the build then fails. |
| Scenarios.NegativeQuantityIsRefused | management/models.py:210 | A form whose only variant posts the quantity -1 builds no offer and stops on a database refusal, so both save views roll the request back. |
| Scenarios.FailedFormKeepsOffer | management/views.py:124-161 | For the form reconstructed from those posted items the save fails, yet the offer "iPhone - Black" is in the table afterwards under a fresh key. |

## Left out

- HTTP request handling is not modelled. That covers methods other than POST, the `redirect`/`render` responses, flash messages, templates, and the JSON decoding of `validate_fees_api`, whose invalid-JSON answer is left out.
- The WhatsApp service is a `respond` function of the `Gateway`. The URL, payload, timeouts and printed logs are left out.
- `parse_with_ai` and `find_best_shipping_keyword_with_ai` are not modelled. The parsed groups and the assistant's answer are parameters. The analysis views' error and exception branches (views.py:37-38, 62-63) are left out.
- `Decimal(text)` and `int(text)` parsing are `Parsers` parameters that answer `None` where Python raises.
- `Decimal` arithmetic is exact `real` arithmetic. The 28-digit context precision is not modelled.
- `lower()`, `upper()`, `strip()`, `isdigit()` and the regex classes `\d` and `\w` are ASCII only. Python applies them to all of Unicode. `strip()` removes every ASCII character Python counts as whitespace, 0x1C to 0x1F included, but not Unicode spaces such as U+0085 or U+00A0.
- Brands and categories are identified by name. `get_or_create` is not modelled as a separate table.
- A group field literally named `variants` would overwrite the group's variant dictionary, and saving would then raise. This field name is not modelled.
- The rate table assumes at most one row per currency pair ignoring case. With duplicates, Django's `get` raises `MultipleObjectsReturned`.
- Shipping rates are a sequence in the order the query returns them. The `ordering = ['product_keyword_en']` of the model is not enforced.
- `transaction.on_commit` is modelled as "run after the save succeeded". The commit itself, and concurrency between requests, are not modelled.
- `Models.SupplierTable.Save`: requires a stored supplier to carry its stored code, because the table invariant ties each code to its key. The source writes back whatever code the object holds. An object with an unknown key (which Django would insert) is not accepted either.
- `Models.OfferTable.Save`: the same restriction as for suppliers.
- `Distribution.Distribute` models a `KeyError` raised during the run as an aborted run (`completed == false`) that keeps the messages already posted. What the surrounding commit hook then does with the exception is not modelled.
- Notification.FormatCents: a negative amount that rounds to zero is printed as `0.00`, where Python's `Decimal` prints `-0.00`. It can only arise from a negative stored rate.
- Database refusals are modelled for a negative `quantity` (the column's check constraint) and for a `price` or `shipping_cost` that does not fit `DecimalField(max_digits=10, decimal_places=2)`. The model assumes a database that refuses both. SQLite accepts an oversized amount when Django writes decimals without quantizing them first. Limits that depend on the backend are not modelled: `max_length` of the text columns, the width of the integer column, and an offer code longer than 10 characters once keys reach 1,000,000.
- The rollback restores the next key as well. On PostgreSQL the keys consumed by rolled-back inserts are not reused; this is not modelled.
- `Decimal("NaN")` and `Decimal("Infinity")` parse in Python but have no `real` counterpart.
- The `print` statements of the pricing engine and the filter are left out.
- `NotificationEngine.build_offer_message` and `calculate_final_price` receive their rate table explicitly. The source queries the database each time.

## Findings

| source | as written | input that shows it | evidently intended | confidence | as-written member | corrected member |
|---|---|---|---|---|---|---|
| management/engine.py:165-172 | The price label computed on line 165, which falls back to "price unavailable", is overwritten on lines 169-172. For any result that is not "no charge" they read `price_data['price']`, so an error result raises `KeyError`. Message building then fails, and the distribution run stops for that subscriber and all later ones. | An offer quoted in EUR when no EUR rate is stored (`Scenarios.MissingRateLosesMessage`). | Show "price unavailable" for an offer whose price could not be computed, and still send the message. | medium, not executed | Notification.BuildOfferMessage, Scenarios.MissingRateLosesMessage | Notification.IntendedOfferMessage, Notification.IntendedMessageExtendsWritten, Notification.IntendedListsFailedOffer |
| management/views.py:124-161 | The view is `@transaction.atomic`, but the `except Exception` that catches a failing variant sits inside it. When the exception is raised in Python while the arguments of `create` are evaluated, no database error marks the transaction for rollback, so it commits. Offers created before the failure then stay saved without being distributed. An error raised by the database itself is different: the whole request is rolled back. | The posted items `group-0-grouping_name=iPhone`, `group-0-variant-0-name=Black` and `group-0-variant-1-price=abc` (`Scenarios.FailedFormKeepsOffer`). | A failed save leaves the offer table as it was. | medium, not executed | Views.SaveDrafts, Scenarios.FailedFormKeepsOffer | Views.SaveDraftsAtomically |

The save flows and the distribution run keep the behaviour as written, because they model what the views and the engine do. The corrected definitions stand beside them, with their intended properties proved: `IntendedMessageExtendsWritten` shows that the correction changes nothing where the written code succeeds.
