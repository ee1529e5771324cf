/**
  The shipping-rate choice of the offer analysis views (`analyze_offer_view`
  and `send_to_single_view`): the rate whose product keyword is the longest
  one found in the group name, else the keyword an AI assistant proposes,
  and the shipping fields this choice writes into every variant of the group.

  The AI assistant is not modelled: its answer is a parameter, consulted
  only where the view calls it.
*/
module Shipping {
  import opened Wrappers
  import opened Text
  import opened Matching

  /** A stored shipping rate; `keyword` is "" when `product_keyword_en` is null. */
  datatype ShippingRate = ShippingRate(keyword: string, cost: real, currency: string)

  /** A variant as the parser returns it, with the shipping fields the view adds. */
  datatype ParsedVariant = ParsedVariant(fields: map<string, string>, shippingCost: real, shippingCurrency: string)

  /** A parsed group of variants; the view updates the variants in place. */
  datatype ParsedGroup = ParsedGroup(groupingName: string, variants: array<ParsedVariant>)

  const NO_SHIPPING_CURRENCY := "N/A"

  function RateKeys(rates: seq<ShippingRate>): (r: seq<string>)
    ensures |r| == |rates|
    ensures forall i :: 0 <= i < |rates| ==> r[i] == Lower(rates[i].keyword)
  {
    seq(|rates|, i requires 0 <= i < |rates| => Lower(rates[i].keyword))
  }

  /** `next(r for r in rates if r.product_keyword_en == keyword)`, as an index. */
  function FirstWithKeyword(rates: seq<ShippingRate>, keyword: string): (r: Option<nat>)
    ensures r.Some? ==>
      && r.value < |rates|
      && rates[r.value].keyword == keyword
      && forall j :: 0 <= j < r.value ==> rates[j].keyword != keyword
    ensures r.None? ==> forall j :: 0 <= j < |rates| ==> rates[j].keyword != keyword
  {
    if rates == [] then None
    else if rates[0].keyword == keyword then Some(0)
    else match FirstWithKeyword(rates[1..], keyword)
      case None => None
      case Some(i) => Some(i + 1)
  }

  /** The chosen rate (an index into the rates) and whether the AI assistant was asked. */
  datatype ShippingDecision = ShippingDecision(choice: Option<nat>, consultedAi: bool)

  /**
    The decision for one group: nothing for an empty group name; otherwise
    the earliest of the longest non-empty keywords contained in the
    lower-cased name; otherwise the AI's answer, when it is non-empty,
    looked up by exact keyword.
  */
  function ShippingChoice(rates: seq<ShippingRate>, groupName: string, aiAnswer: Option<string>): ShippingDecision {
    var name := Lower(groupName);
    if name == "" then ShippingDecision(None, false)
    else
      var best := LongestFirst(RateKeys(rates), name, true, |rates|);
      if best.Some? then ShippingDecision(best, false)
      else
        match aiAnswer
        case None => ShippingDecision(None, true)
        case Some(keyword) => ShippingDecision(if keyword != "" then FirstWithKeyword(rates, keyword) else None, true)
  }

  /** The loop of the analysis views that picks `best_match_rate`, then the AI fallback. */
  method ChooseShippingRate(rates: seq<ShippingRate>, groupName: string, aiAnswer: Option<string>)
    returns (choice: Option<nat>, consultedAi: bool)
    ensures ShippingDecision(choice, consultedAi) == ShippingChoice(rates, groupName, aiAnswer)
  {
    var name := Lower(groupName);
    choice := None;
    consultedAi := false;
    if name != "" {
      for i := 0 to |rates|
        invariant choice == LongestFirst(RateKeys(rates), name, true, i)
      {
        var keyword := Lower(rates[i].keyword);
        if keyword != "" && Contains(name, keyword) {
          if choice.None? || |keyword| > |rates[choice.value].keyword| {
            choice := Some(i);
          }
        }
      }
      if choice.None? {
        consultedAi := true;
        if aiAnswer.Some? && aiAnswer.value != "" {
          choice := FirstWithKeyword(rates, aiAnswer.value);
        }
      }
    }
  }

  /**
    The choice is the earliest of the longest non-empty rate keywords
    contained in the group name, ignoring case; when the name contains
    one, the AI assistant is not asked.
  */
  lemma ShippingChoiceIsLongestKeyword(rates: seq<ShippingRate>, groupName: string, aiAnswer: Option<string>)
    requires Lower(groupName) != ""
    requires exists j :: 0 <= j < |rates| && Lower(rates[j].keyword) != "" && Contains(Lower(groupName), Lower(rates[j].keyword))
    ensures var d := ShippingChoice(rates, groupName, aiAnswer);
      && !d.consultedAi
      && d.choice.Some?
      && IsLongestFirst(RateKeys(rates), Lower(groupName), true, |rates|, d.choice.value)
  {
    var keys := RateKeys(rates);
    LongestFirstIsLongest(keys, Lower(groupName), true, |rates|);
    var j :| 0 <= j < |rates| && Lower(rates[j].keyword) != "" && Contains(Lower(groupName), Lower(rates[j].keyword));
    assert Eligible(keys, Lower(groupName), true, j);
  }

  /**
    The AI assistant is asked exactly when the group name is non-empty and
    contains no non-empty keyword; a non-empty listed answer selects the
    first rate with exactly that keyword, and no answer or an empty one
    selects nothing.
  */
  lemma AiConsultedOnlyWithoutMatch(rates: seq<ShippingRate>, groupName: string, aiAnswer: Option<string>)
    ensures ShippingChoice(rates, groupName, aiAnswer).consultedAi <==>
      Lower(groupName) != "" &&
      forall j :: 0 <= j < |rates| ==> Lower(rates[j].keyword) == "" || !Contains(Lower(groupName), Lower(rates[j].keyword))
    ensures (ShippingChoice(rates, groupName, aiAnswer).consultedAi && aiAnswer.Some? && aiAnswer.value != ""
      && exists j :: 0 <= j < |rates| && rates[j].keyword == aiAnswer.value) ==>
      ShippingChoice(rates, groupName, aiAnswer).choice.Some?
      && rates[ShippingChoice(rates, groupName, aiAnswer).choice.value].keyword == aiAnswer.value
    ensures ShippingChoice(rates, groupName, aiAnswer).consultedAi && (aiAnswer.None? || aiAnswer.value == "") ==>
      ShippingChoice(rates, groupName, aiAnswer).choice.None?
  {
    var keys := RateKeys(rates);
    LongestFirstIsLongest(keys, Lower(groupName), true, |rates|);
    assert forall j :: 0 <= j < |rates| ==>
      (Eligible(keys, Lower(groupName), true, j) <==> Lower(rates[j].keyword) != "" && Contains(Lower(groupName), Lower(rates[j].keyword)));
  }

  /** The shipping fields of a decision: the rate's cost and currency, else 0 and "N/A". */
  function ShippingFields(rates: seq<ShippingRate>, choice: Option<nat>): (real, string)
  {
    if choice.Some? && choice.value < |rates| then (rates[choice.value].cost, rates[choice.value].currency)
    else (0.0, NO_SHIPPING_CURRENCY)
  }

  function WithShipping(v: ParsedVariant, fields: (real, string)): ParsedVariant {
    v.(shippingCost := fields.0, shippingCurrency := fields.1)
  }

  /** Every variant of a group receives the same shipping cost and currency; nothing else changes. */
  method AnnotateVariants(variants: array<ParsedVariant>, fields: (real, string))
    modifies variants
    ensures forall i :: 0 <= i < variants.Length ==>
      variants[i] == WithShipping(old(variants[i]), fields)
  {
    for i := 0 to variants.Length
      invariant forall k :: 0 <= k < i ==> variants[k] == WithShipping(old(variants[k]), fields)
      invariant forall k :: i <= k < variants.Length ==> variants[k] == old(variants[k])
    {
      variants[i] := WithShipping(variants[i], fields);
    }
  }

  /** All variants of a group carry the same shipping fields, and their other fields are kept. */
  lemma AnnotatedVariantsAgree(before: seq<ParsedVariant>, after: seq<ParsedVariant>, fields: (real, string))
    requires |before| == |after|
    requires forall i :: 0 <= i < |after| ==> after[i] == WithShipping(before[i], fields)
    ensures forall i, j :: 0 <= i < |after| && 0 <= j < |after| ==>
      after[i].shippingCost == after[j].shippingCost && after[i].shippingCurrency == after[j].shippingCurrency
    ensures forall i :: 0 <= i < |after| ==> after[i].fields == before[i].fields
  {
  }

  /**
    The per-group loop of the analysis views: choose a rate for each group
    (`aiAnswers[j]` is what the assistant would answer for group `j`) and
    write its fields into all of the group's variants.
  */
  method AnalyzeGroups(groups: seq<ParsedGroup>, rates: seq<ShippingRate>, aiAnswers: seq<Option<string>>)
    requires |aiAnswers| == |groups|
    requires forall j, k :: 0 <= j < k < |groups| ==> groups[j].variants != groups[k].variants
    modifies set j | 0 <= j < |groups| :: groups[j].variants
    ensures forall j :: 0 <= j < |groups| ==>
      var fields := ShippingFields(rates, ShippingChoice(rates, groups[j].groupingName, aiAnswers[j]).choice);
      forall i :: 0 <= i < groups[j].variants.Length ==>
        groups[j].variants[i] == WithShipping(old(groups[j].variants[i]), fields)
  {
    for j := 0 to |groups|
      invariant forall k :: j <= k < |groups| ==> groups[k].variants[..] == old(groups[k].variants[..])
      invariant forall k :: 0 <= k < j ==>
        var fields := ShippingFields(rates, ShippingChoice(rates, groups[k].groupingName, aiAnswers[k]).choice);
        forall i :: 0 <= i < groups[k].variants.Length ==>
          groups[k].variants[i] == WithShipping(old(groups[k].variants[i]), fields)
    {
      var choice, _ := ChooseShippingRate(rates, groups[j].groupingName, aiAnswers[j]);
      AnnotateVariants(groups[j].variants, ShippingFields(rates, choice));
    }
  }
}
